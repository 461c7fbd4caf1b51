/** The Go emitter as an object, each stretch of code under its mutex a method, tied to the interleaving model. */
module GoTelemetryEmitter {
  import opened Results
  import opened TelemetryStore
  import opened GoFlushLoop
  import Backoff

  class TelemetryEmitter {
    const batchSize: int
    const bufferCap: nat
    const maxRetries: int
    var buffer: seq<Event>
    var dropped: nat
    var closed: bool
    var flushSignal: bool         // the one slot of flushChan
    var flushChanClosed: bool
    ghost var history: History

    ghost function Contents(): Store
      reads this
    {
      Store(bufferCap, buffer, dropped, closed, history)
    }

    /** The state of the model, given where the flush loop and the closer are. */
    ghost function At(loop: LoopAt, closer: CloserAt): State
      reads this
    {
      State(Contents(), batchSize, flushSignal, flushChanClosed, false, loop, closer)
    }

    constructor (batchSize: int, bufferCap: nat, maxRetries: int)
      ensures At(Waiting, NoCloser) == Init(bufferCap, batchSize)
      ensures this.batchSize == batchSize && this.bufferCap == bufferCap && this.maxRetries == maxRetries
    {
      this.batchSize := batchSize;
      this.bufferCap := bufferCap;
      this.maxRetries := maxRetries;
      buffer, dropped, closed, flushSignal, flushChanClosed := [], 0, false, false, false;
      history := History([], [], [], None);
    }

    /** An event goes in behind the others, and the oldest out when there is no room. */
    method Append(e: Event)
      requires !closed
      modifies this`buffer, this`dropped, this`history
      ensures Contents() == Accept(old(Contents()), e)
      ensures if |old(buffer)| == bufferCap && bufferCap > 0
              then buffer == old(buffer)[1..] + [e] && dropped == old(dropped) + 1
              else buffer == old(buffer) + [e]
    {
      if |buffer| == bufferCap {
        buffer := WithoutOldest(buffer);
        dropped := dropped + 1;
      }
      buffer := buffer + [e];
      history := history.(current := history.current + [e]);
    }

    method Emit(e: Event, ghost loop: LoopAt, ghost closer: CloserAt)
      requires flushChanClosed ==> closed
      modifies this
      ensures At(loop, closer) == Step(old(At(loop, closer)), Action.Emit(e))
      ensures flushSignal == (old(flushSignal) || (!closed && (DoesNotWait(e.eventType) || |buffer| >= batchSize)))
      ensures if old(closed) then buffer == old(buffer) && dropped == old(dropped)
              else if |old(buffer)| == bufferCap && bufferCap > 0
              then buffer == old(buffer)[1..] + [e] && dropped == old(dropped) + 1
              else buffer == old(buffer) + [e]
    {
      if closed {
        return;
      }
      Append(e);
      CriticalTypes(e);
      if IsCritical(e) || |buffer| >= batchSize {
        flushSignal := true;
      }
    }

    /** Close as far as its first unlock; `first` tells the one caller that goes on. */
    method BeginClose(ghost loop: LoopAt, ghost closer: CloserAt) returns (first: bool)
      modifies this
      ensures first == !old(closed) && closed && buffer == old(buffer)
      ensures At(loop, if first then Marked else closer) == Step(old(At(loop, closer)), Action.BeginClose)
    {
      first := !closed;
      if first {
        history := history.(closing := Some(Closing(buffer, |history.batches|)));
        closed := true;
      }
    }

    method SignalClose(ghost loop: LoopAt)
      requires !flushChanClosed
      modifies this`flushSignal
      ensures At(loop, Signalled) == Step(old(At(loop, Marked)), Action.SignalClose)
    {
      flushSignal := true;
    }

    method CloseChannel(ghost loop: LoopAt)
      requires !flushChanClosed
      modifies this`flushChanClosed
      ensures At(loop, ChannelClosed) == Step(old(At(loop, Signalled)), Action.CloseChannel)
    {
      flushChanClosed := true;
    }

    /** The first caller's whole Close, when nothing comes between its parts; the other callers do nothing. */
    method Close(ghost loop: LoopAt)
      requires flushChanClosed ==> closed
      modifies this
      ensures old(closed) ==> forall closer :: At(loop, closer) == old(At(loop, closer))
      ensures !old(closed) ==> closed && flushSignal && flushChanClosed && buffer == old(buffer)
      ensures !old(closed) ==>
              At(loop, ChannelClosed) ==
              After(old(At(loop, NoCloser)), [Action.BeginClose, Action.SignalClose, Action.CloseChannel])
    {
      ghost var s0 := At(loop, NoCloser);
      var first := BeginClose(loop, NoCloser);
      if !first {
        return;
      }
      ghost var s1 := At(loop, Marked);
      SignalClose(loop);
      ghost var s2 := At(loop, Signalled);
      CloseChannel(loop);
      ThreeSteps(s0, Action.BeginClose, Action.SignalClose, Action.CloseChannel);
      assert s1 == Step(s0, Action.BeginClose) && s2 == Step(s1, Action.SignalClose);
    }

    /** The select of the flush loop once its channel is ready: a signal that is up is taken first, and a
        closed channel is found only when none is. */
    method Receive() returns (open: bool)
      requires flushSignal || flushChanClosed
      modifies this`flushSignal
      ensures open == old(flushSignal) && !flushSignal
      ensures forall closer :: At(Draining(open), closer) == Step(old(At(Waiting, closer)), Action.Receive)
    {
      open := flushSignal;
      flushSignal := false;
    }

    /** The critical section of flushOnce. */
    method TakeBatch(ghost open: bool) returns (batch: seq<Event>)
      modifies this
      ensures batch == old(buffer) && buffer == []
      ensures forall closer :: At(Sending(open), closer) == Step(old(At(Draining(open), closer)), Action.Drain)
    {
      batch := buffer;
      if |buffer| == 0 {
        return;
      }
      history := history.(
        epochs := history.epochs + [history.current], batches := history.batches + [buffer], current := []);
      buffer := [];
    }

    /** One flush: the buffer is taken whether or not the batch then gets through. */
    method FlushOnce(replies: nat -> Backoff.Reply) returns (batch: seq<Event>, attempts: nat)
      modifies this
      ensures batch == old(buffer) && buffer == [] && Contents() == HandOff(old(Contents()))
      ensures batch == [] ==> attempts == 0
      ensures batch != [] ==> Backoff.StopsAfter(replies, maxRetries, attempts)
    {
      batch := TakeBatch(true);
      attempts := 0;
      if |batch| > 0 {
        var delivered, made, slept := Backoff.SendWithRetry(replies, maxRetries);
        attempts := made;
      }
      assert At(Sending(true), NoCloser).store == HandOff(old(At(Draining(true), NoCloser)).store);
    }
  }

  lemma ThreeSteps(s: State, a: Action, b: Action, c: Action)
    ensures After(s, [a, b, c]) == Step(Step(Step(s, a), b), c)
  {
    assert [a, b, c][..2] == [a, b] && [a, b][..1] == [a] && [a][..0] == [];
    assert After(s, [a, b]) == Step(After(s, [a]), b);
    assert After(s, [a]) == Step(After(s, []), a);
  }
}
