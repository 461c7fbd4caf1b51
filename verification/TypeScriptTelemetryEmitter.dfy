/** The TypeScript emitter. One thread runs it, so each method is uninterrupted up to its first await. */
module TypeScriptTelemetryEmitter {
  import opened Results
  import opened TelemetryStore
  import opened TypeScriptFlushLoop

  class TelemetryEmitter {
    const batchSize: int
    const bufferCap: nat
    var buffer: seq<Event>
    var droppedCount: nat
    var closed: bool
    var timerSet: bool
    var flushing: bool            // inflightFlush is not null
    ghost var history: History

    ghost function Contents(): Store
      reads this
    {
      Store(bufferCap, buffer, droppedCount, closed, history)
    }

    /** The state of the model. */
    ghost function Loop(): State
      reads this
    {
      State(Contents(), batchSize, timerSet, flushing)
    }

    constructor (batchSize: int, bufferCap: nat)
      ensures Loop() == Init(bufferCap, batchSize)
      ensures Contents() == Empty(bufferCap) && this.batchSize == batchSize && !timerSet && !flushing
    {
      this.batchSize := batchSize;
      this.bufferCap := bufferCap;
      buffer, droppedCount, closed, timerSet, flushing := [], 0, false, false, false;
      history := History([], [], [], None);
    }

    method Emit(e: Event)
      modifies this
      ensures Loop() == Step(old(Loop()), Action.Emit(e))
      ensures var count := if |old(buffer)| == bufferCap && bufferCap > 0 then bufferCap else |old(buffer)| + 1;
              var urgent := DoesNotWait(e.eventType) || count >= batchSize;
              && (!old(closed) && urgent ==> flushing && (!old(flushing) ==> buffer == []) && timerSet == old(timerSet))
              && (!old(closed) && !urgent ==> timerSet && flushing == old(flushing))
              && (!old(closed) && !urgent ==> |buffer| == count && buffer[|buffer| - 1] == e)
              && (old(closed) ==> buffer == old(buffer) && timerSet == old(timerSet) && flushing == old(flushing))
      ensures var accepted := Accept(old(Contents()), e);
              var urgent := !old(closed) && (IsCritical(e) || |accepted.buffer| >= batchSize);
              && Contents() == (if urgent && !old(flushing) then HandOff(accepted) else accepted)
              && flushing == (old(flushing) || urgent)
              && timerSet == (old(timerSet) || (!old(closed) && !urgent))
    {
      CriticalTypes(e);
      if closed {
        return;
      }
      if |buffer| == bufferCap {
        buffer := WithoutOldest(buffer);
        droppedCount := droppedCount + 1;
      }
      buffer := buffer + [e];
      history := history.(current := history.current + [e]);
      if IsCritical(e) || |buffer| >= batchSize {
        var _ := Flush();
      } else {
        ScheduleTimer();
      }
    }

    method ScheduleTimer()
      modifies this`timerSet
      ensures timerSet == (old(timerSet) || !closed)
    {
      if timerSet || closed {
        return;
      }
      timerSet := true;
    }

    /** `flush` as far as its await. During another flush it takes nothing. */
    method Flush() returns (batch: seq<Event>)
      modifies this`buffer, this`flushing, this`history
      ensures flushing && Loop() == Step(old(Loop()), Action.Flush)
      ensures batch == if old(flushing) then [] else old(buffer)
      ensures buffer == if old(flushing) then old(buffer) else []
      ensures Contents() == if old(flushing) then old(Contents()) else HandOff(old(Contents()))
    {
      batch := [];
      if flushing {
        return;
      }
      flushing := true;
      if |buffer| == 0 {
        return;
      }
      batch := buffer;
      history := history.(
        epochs := history.epochs + [history.current], batches := history.batches + [buffer], current := []);
      buffer := [];
    }

    /** The `finally` of the flush whose sending is over. */
    method FlushSettled()
      modifies this`flushing
      ensures !flushing && Loop() == Step(old(Loop()), Settle)
    {
      flushing := false;
    }

    method TimerFired() returns (batch: seq<Event>)
      modifies this`buffer, this`flushing, this`timerSet, this`history
      ensures !timerSet && flushing
      ensures old(timerSet) ==> Loop() == Step(old(Loop()), Fire)
      ensures Contents() == if old(flushing) then old(Contents()) else HandOff(old(Contents()))
    {
      timerSet := false;
      batch := Flush();
    }

    /** `close` as far as its wait for a flush in flight. */
    method BeginClose() returns (first: bool)
      modifies this
      ensures first == !old(closed) && Contents() == MarkClosed(old(Contents()))
      ensures first ==> !timerSet
      ensures Loop() == Step(old(Loop()), Action.BeginClose)
    {
      first := !closed;
      if first {
        history := history.(closing := Some(Closing(buffer, |history.batches|)));
        closed := true;
        timerSet := false;
      }
    }

    /** The rest of `close`, once no flush is in flight: everything that was left is handed off. */
    method FinishClose() returns (batch: seq<Event>)
      requires closed && !flushing
      requires Consistent(Contents())
      modifies this`buffer, this`flushing, this`history
      ensures Contents() == HandOff(old(Contents()))
      ensures Drained(Contents()) && Loop() == Step(old(Loop()), Action.FinishClose)
    {
      HandOffConsistent(Contents());
      batch := [];
      if |buffer| > 0 {
        batch := Flush();
      }
    }
  }
}
