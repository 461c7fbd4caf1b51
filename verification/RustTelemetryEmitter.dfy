/** The Rust emitter as an object, each stretch of code under its mutex a method, tied to the interleaving model. */
module RustTelemetryEmitter {
  import opened Results
  import opened TelemetryStore
  import opened RustFlushLoop
  import Backoff

  class TelemetryEmitter {
    const batchSize: nat
    const bufferCap: nat
    const maxRetries: nat
    var buffer: seq<Event>
    var dropped: nat
    var closed: bool
    var permit: bool              // the wake-up that `notify` stores
    ghost var history: History

    ghost function Contents(): Store
      reads this
    {
      Store(bufferCap, buffer, dropped, closed, history)
    }

    /** The state of the model, given how many are about to notify and where the flush loop is. */
    ghost function At(notifying: nat, closing: nat, loop: LoopAt): State
      reads this
    {
      State(Contents(), batchSize, permit, notifying, closing, loop)
    }

    constructor (batchSize: nat, bufferCap: nat, maxRetries: nat)
      ensures At(0, 0, Waiting) == Init(bufferCap, batchSize) && this.maxRetries == maxRetries
    {
      this.batchSize := batchSize;
      this.bufferCap := bufferCap;
      this.maxRetries := maxRetries;
      buffer, dropped, closed, permit := [], 0, false, false;
      history := History([], [], [], None);
    }

    /** `emit` as far as its unlock; `notify` says whether a wake-up is to follow. */
    method Push(e: Event, ghost notifying: nat, ghost closing: nat, ghost loop: LoopAt) returns (notify: bool)
      modifies this`buffer, this`dropped, this`history
      ensures At(if notify then notifying + 1 else notifying, closing, loop) ==
              Step(old(At(notifying, closing, loop)), Action.Push(e))
      ensures notify <==> !closed && (DoesNotWait(e.eventType) || |buffer| >= batchSize)
      ensures if closed then buffer == old(buffer) && dropped == old(dropped)
              else if |old(buffer)| == bufferCap && bufferCap > 0
              then buffer == old(buffer)[1..] + [e] && dropped == old(dropped) + 1
              else buffer == old(buffer) + [e]
    {
      CriticalTypes(e);
      if closed {
        return false;
      }
      if |buffer| == bufferCap {
        buffer := WithoutOldest(buffer);
        dropped := dropped + 1;
      }
      buffer := buffer + [e];
      history := history.(current := history.current + [e]);
      return IsCritical(e) || |buffer| >= batchSize;
    }

    /** `notify_one`, after `emit` and in `close`. */
    method NotifyOne(ghost notifying: nat, ghost closing: nat, ghost loop: LoopAt)
      modifies this`permit
      ensures permit
      ensures notifying > 0 ==> At(notifying - 1, closing, loop) == Step(old(At(notifying, closing, loop)), NotifyFlush)
      ensures closing > 0 ==> At(notifying, closing - 1, loop) == Step(old(At(notifying, closing, loop)), NotifyClose)
    {
      permit := true;
    }

    /** `close` as far as its unlock; `first` tells the one caller that goes on. */
    method BeginClose(ghost notifying: nat, ghost closing: nat, ghost loop: LoopAt) returns (first: bool)
      modifies this`closed, this`history
      ensures first == !old(closed) && closed
      ensures At(notifying, if first then closing + 1 else closing, loop) ==
              Step(old(At(notifying, closing, loop)), Action.BeginClose)
    {
      first := !closed;
      if first {
        history := history.(closing := Some(Closing(buffer, |history.batches|)));
        closed := true;
      }
    }

    /** The select of the flush loop: a stored wake-up, or the timer. */
    method Wake(timer: bool, ghost notifying: nat, ghost closing: nat)
      requires timer || permit
      modifies this`permit
      ensures permit == (timer && old(permit))
      ensures At(notifying, closing, Draining) ==
              Step(old(At(notifying, closing, Waiting)), if timer then Timeout else TakePermit)
    {
      if !timer {
        permit := false;
      }
    }

    /** The critical section of `flush_once`, in the loop and in its last pass. */
    method TakeBatch(ghost notifying: nat, ghost closing: nat) returns (batch: seq<Event>)
      modifies this`buffer, this`history
      ensures batch == old(buffer) && buffer == []
      ensures At(notifying, closing, Sending) == Step(old(At(notifying, closing, Draining)), Drain)
      ensures At(notifying, closing, LastSending) == Step(old(At(notifying, closing, LastDraining)), LastDrain)
    {
      batch := buffer;
      if |buffer| == 0 {
        return;
      }
      history := history.(
        epochs := history.epochs + [history.current], batches := history.batches + [buffer], current := []);
      buffer := [];
    }

    /** The look at `closed` after a flush; if set, one last flush follows. */
    method SeesClosed(ghost notifying: nat, ghost closing: nat) returns (last: bool)
      ensures last == closed
      ensures At(notifying, closing, if last then LastDraining else Waiting) ==
              Step(At(notifying, closing, Checking), Check)
    {
      last := closed;
    }

    /** One flush: the buffer is taken whether or not the batch then gets through. */
    method FlushOnce(replies: nat -> Backoff.Reply) returns (batch: seq<Event>, attempts: nat)
      modifies this`buffer, this`history
      ensures batch == old(buffer) && buffer == [] && Contents() == HandOff(old(Contents()))
      ensures batch == [] ==> attempts == 0
      ensures batch != [] ==> Backoff.StopsAfter(replies, maxRetries, attempts)
    {
      batch := TakeBatch(0, 0);
      attempts := 0;
      if |batch| > 0 {
        var delivered, made, slept := Backoff.SendWithRetry(replies, maxRetries);
        attempts := made;
      }
      assert At(0, 0, Sending).store == HandOff(old(At(0, 0, Draining)).store);
    }
  }
}
