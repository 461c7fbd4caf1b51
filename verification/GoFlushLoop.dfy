/** The Go emitter as its emitters, closers and flush loop interleave: one action is one stretch of code
    that no other can interrupt. */
module GoFlushLoop {
  import opened Results
  import opened TelemetryStore

  /** Where the flush loop is: in its select, past it and about to take the buffer, sending, or gone.
      `open` is the flag the channel receive gave. */
  datatype LoopAt = Waiting | Draining(open: bool) | Sending(open: bool) | Returned

  /** Where the one closer that got past the guard is. */
  datatype CloserAt = NoCloser | Marked | Signalled | ChannelClosed

  /** `signal` is the one slot of the flush channel. A send or a close on a closed channel panics. */
  datatype State = State(store: Store, batchSize: int, signal: bool, channelClosed: bool, panicked: bool,
                         loop: LoopAt, closer: CloserAt)

  datatype Action =
    | Emit(event: Event)    // the whole of Emit, under the mutex
    | BeginClose            // Close up to its unlock
    | SignalClose           // the non-blocking send in Close
    | CloseChannel
    | Receive               // the loop's select takes a signal, or finds the channel closed
    | Tick                  // the loop's select takes the timer
    | Drain                 // the critical section of flushOnce
    | Sent                  // sending is over, with or without success

  function Init(cap: nat, batchSize: int): State {
    State(Empty(cap), batchSize, false, false, false, Waiting, NoCloser)
  }

  predicate Urgent(s: State, e: Event) {
    IsCritical(e) || |s.store.buffer| >= s.batchSize
  }

  function SendSignal(s: State): State {
    if s.channelClosed then s.(panicked := true) else s.(signal := true)
  }

  /** An action that cannot happen in `s` leaves `s` as it is. */
  function Step(s: State, a: Action): State {
    match a
    case Emit(e) =>
      if s.store.closed then s
      else
        var t := s.(store := Accept(s.store, e));
        if Urgent(t, e) then SendSignal(t) else t
    case BeginClose =>
      if s.store.closed then s else s.(store := MarkClosed(s.store), closer := Marked)
    case SignalClose =>
      if s.closer.Marked? then SendSignal(s).(closer := Signalled) else s
    case CloseChannel =>
      if !s.closer.Signalled? then s
      else if s.channelClosed then s.(panicked := true)
      else s.(channelClosed := true, closer := ChannelClosed)
    case Receive =>
      if !s.loop.Waiting? then s
      else if s.signal then s.(signal := false, loop := Draining(true))
      else if s.channelClosed then s.(loop := Draining(false))
      else s
    case Tick =>
      if s.loop.Waiting? then s.(loop := Draining(true)) else s
    case Drain =>
      if s.loop.Draining? then s.(store := HandOff(s.store), loop := Sending(s.loop.open)) else s
    case Sent =>
      if s.loop.Sending? then s.(loop := if s.loop.open then Waiting else Returned) else s
  }

  function After(s: State, actions: seq<Action>): State {
    if actions == [] then s else Step(After(s, actions[..|actions| - 1]), actions[|actions| - 1])
  }

  // ---- What every reachable state keeps ----

  /** The buffer holds something that must not wait for the timer. */
  ghost predicate NeedsFlush(s: State) {
    s.store.buffer != [] &&
    (|s.store.buffer| >= s.batchSize || exists e :: e in s.store.buffer && IsCritical(e))
  }

  /** No wake-up is lost: the signal is up, or the loop is past its select and yet to take the buffer. */
  ghost predicate WillFlush(s: State) {
    NeedsFlush(s) ==> s.signal || s.loop.Draining?
  }

  /** The channel is closed once, by the closer, after the last send. */
  ghost predicate ChannelDiscipline(s: State) {
    && !s.panicked
    && (s.closer.NoCloser? <==> !s.store.closed)
    && (s.channelClosed <==> s.closer.ChannelClosed?)
    && (s.loop == Draining(false) || s.loop == Sending(false) || s.loop.Returned? ==> s.channelClosed)
  }

  /** The last pass leaves nothing behind. */
  ghost predicate LastPass(s: State) {
    s.loop == Sending(false) || s.loop.Returned? ==> s.store.buffer == []
  }

  ghost predicate Inv(s: State) {
    s.store.cap >= 1 && Consistent(s.store) && ChannelDiscipline(s) && LastPass(s) && WillFlush(s)
  }

  lemma AcceptKeepsOthers(s: Store, e: Event, x: Event)
    requires !s.closed && x in Accept(s, e).buffer
    ensures x == e || x in s.buffer
  {
  }

  lemma EmitKeepsWakeups(s: State, e: Event)
    requires Inv(s) && !s.store.closed
    ensures WillFlush(Step(s, Emit(e)))
  {
    var t := Step(s, Emit(e));
    if NeedsFlush(t) && !Urgent(s.(store := t.store), e) {
      var x :| x in t.store.buffer && IsCritical(x);
      AcceptKeepsOthers(s.store, e, x);
      assert x in s.store.buffer;
    }
  }

  lemma StepKeepsInv(s: State, a: Action)
    requires Inv(s)
    ensures Inv(Step(s, a))
  {
    match a
    case Emit(e) =>
      ApplyConsistent(s.store, Put(e));
      if !s.store.closed { EmitKeepsWakeups(s, e); }
    case BeginClose => ApplyConsistent(s.store, Shut);
    case Drain => ApplyConsistent(s.store, Take);
    case _ =>
  }

  /** Every interleaving: the store is consistent, no wake-up is lost, and nothing is sent on or closes a
      closed channel. */
  lemma {:induction false} EveryInterleaving(cap: nat, batchSize: int, actions: seq<Action>)
    requires cap >= 1
    ensures Inv(After(Init(cap, batchSize), actions))
  {
    if actions != [] {
      EveryInterleaving(cap, batchSize, actions[..|actions| - 1]);
      StepKeepsInv(After(Init(cap, batchSize), actions[..|actions| - 1]), actions[|actions| - 1]);
    }
  }

  // ---- Closing ----

  /** When the loop has returned the buffer is empty, and all that was in it when the emitter was marked
      closed, and nothing emitted later, has been handed off. */
  lemma CloseDrains(cap: nat, batchSize: int, actions: seq<Action>)
    requires cap >= 1 && After(Init(cap, batchSize), actions).loop.Returned?
    ensures Drained(After(Init(cap, batchSize), actions).store)
  {
    EveryInterleaving(cap, batchSize, actions);
  }

  lemma NothingMovesReturned(s: State, a: Action)
    requires Inv(s) && s.loop.Returned?
    ensures Step(s, a).loop.Returned? && Step(s, a).store == s.store
  {
  }

  lemma {:induction false} ReturnedIsFinal(s: State, more: seq<Action>)
    requires Inv(s) && s.loop.Returned?
    ensures After(s, more).loop.Returned? && After(s, more).store == s.store && Inv(After(s, more))
  {
    if more != [] {
      ReturnedIsFinal(s, more[..|more| - 1]);
      var t, a := After(s, more[..|more| - 1]), more[|more| - 1];
      assert After(s, more) == Step(t, a);
      StepKeepsInv(t, a);
      NothingMovesReturned(t, a);
    }
  }

  lemma {:induction false} AfterAppend(s: State, actions: seq<Action>, more: seq<Action>)
    ensures After(s, actions + more) == After(After(s, actions), more)
  {
    if more == [] {
      assert actions + more == actions;
    } else {
      var last := |more| - 1;
      AfterAppend(s, actions, more[..last]);
      assert (actions + more)[..|actions + more| - 1] == actions + more[..last];
    }
  }

  /** ... and it stays so. */
  lemma StaysDrained(cap: nat, batchSize: int, actions: seq<Action>, more: seq<Action>)
    requires cap >= 1 && After(Init(cap, batchSize), actions).loop.Returned?
    ensures After(Init(cap, batchSize), actions + more).loop.Returned?
    ensures After(Init(cap, batchSize), actions + more).store == After(Init(cap, batchSize), actions).store
  {
    EveryInterleaving(cap, batchSize, actions);
    AfterAppend(Init(cap, batchSize), actions, more);
    ReturnedIsFinal(After(Init(cap, batchSize), actions), more);
  }

  /** The close itself is never missed: until the loop has returned, something can still move it. */
  lemma CloseIsNoticed(cap: nat, batchSize: int, actions: seq<Action>)
    requires cap >= 1
    ensures var s := After(Init(cap, batchSize), actions);
            s.store.closed && !s.loop.Returned? ==>
              exists a :: a in {SignalClose, CloseChannel, Receive, Drain, Sent} && Step(s, a) != s
  {
    EveryInterleaving(cap, batchSize, actions);
    var s := After(Init(cap, batchSize), actions);
    if s.store.closed && !s.loop.Returned? {
      var a := if s.closer.Marked? then SignalClose else if s.closer.Signalled? then CloseChannel
               else if s.loop.Waiting? then Receive else if s.loop.Draining? then Drain else Sent;
      assert Step(s, a) != s;
    }
  }

  // ---- The loop can always return once closed ----

  ghost predicate CanReturn(s: State) { exists more: seq<Action> :: After(s, more).loop.Returned? }

  lemma OneStepEarlier(s: State, a: Action)
    requires CanReturn(Step(s, a))
    ensures CanReturn(s)
  {
    var more :| After(Step(s, a), more).loop.Returned?;
    AfterAppend(s, [a], more);
    assert [a][..0] == [] && After(s, [a]) == Step(After(s, []), a);
    assert After(s, [a] + more).loop.Returned?;
  }

  lemma FromSending(s: State)
    requires s.loop == Sending(false)
    ensures CanReturn(s)
  {
    assert After(Step(s, Sent), []) == Step(s, Sent);
    OneStepEarlier(s, Sent);
  }

  /** A channel that is closed and has no signal up ends the loop with the next pass. */
  lemma FromClosedChannel(s: State)
    requires s.channelClosed && !s.signal && s.loop.Waiting?
    ensures CanReturn(s)
  {
    var t := Step(Step(s, Receive), Drain);
    FromSending(t);
    OneStepEarlier(Step(s, Receive), Drain);
    OneStepEarlier(s, Receive);
  }

  lemma FromWaiting(s: State)
    requires s.channelClosed && s.loop.Waiting?
    ensures CanReturn(s)
  {
    if s.signal {
      FromSendingOpen(Step(Step(s, Receive), Drain));
      OneStepEarlier(Step(s, Receive), Drain);
      OneStepEarlier(s, Receive);
    } else {
      FromClosedChannel(s);
    }
  }

  lemma FromSendingOpen(s: State)
    requires s.channelClosed && !s.signal && s.loop == Sending(true)
    ensures CanReturn(s)
  {
    FromClosedChannel(Step(s, Sent));
    OneStepEarlier(s, Sent);
  }

  lemma FromAnywhere(s: State)
    requires s.channelClosed
    ensures CanReturn(s)
  {
    match s.loop
    case Waiting => FromWaiting(s);
    case Draining(open) =>
      FromSendingAnyhow(Step(s, Drain));
      OneStepEarlier(s, Drain);
    case Sending(open) => FromSendingAnyhow(s);
    case Returned =>
      assert After(s, []) == s;
      assert After(s, []).loop.Returned?;
  }

  lemma FromSendingAnyhow(s: State)
    requires s.channelClosed && s.loop.Sending?
    ensures CanReturn(s)
  {
    if s.loop.open {
      FromWaiting(Step(s, Sent));
      OneStepEarlier(s, Sent);
    } else {
      FromSending(s);
    }
  }

  /** From every reachable state of a closed emitter the loop can still return. */
  lemma ClosedCanReturn(cap: nat, batchSize: int, actions: seq<Action>)
    requires cap >= 1 && After(Init(cap, batchSize), actions).store.closed
    ensures CanReturn(After(Init(cap, batchSize), actions))
  {
    EveryInterleaving(cap, batchSize, actions);
    var s := After(Init(cap, batchSize), actions);
    if s.closer.Marked? {
      FromAnywhere(Step(Step(s, SignalClose), CloseChannel));
      OneStepEarlier(Step(s, SignalClose), CloseChannel);
      OneStepEarlier(s, SignalClose);
    } else if s.closer.Signalled? {
      FromAnywhere(Step(s, CloseChannel));
      OneStepEarlier(s, CloseChannel);
    } else {
      FromAnywhere(s);
    }
  }
}
