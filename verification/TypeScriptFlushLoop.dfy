/** The TypeScript emitter as events, its timer, its flushes and its close follow one another on one thread: when an
    event that is buffered is left without anything that would ever flush it. */
module TypeScriptFlushLoop {
  import opened Results
  import opened TelemetryStore

  datatype State = State(store: Store, batchSize: int, timer: bool, flushing: bool)

  datatype Action =
    | Emit(event: Event)
    | Fire            // the timer
    | Flush           // called by the application
    | Settle          // the flush in flight is over
    | BeginClose
    | FinishClose     // once no flush is in flight

  function Init(cap: nat, batchSize: int): State { State(Empty(cap), batchSize, false, false) }

  predicate Urgent(s: State, e: Event) { IsCritical(e) || |Accept(s.store, e).buffer| >= s.batchSize }

  /** During a flush another one takes nothing. */
  function StartFlush(s: State): State {
    if s.flushing then s else s.(store := HandOff(s.store), flushing := true)
  }

  /** An action that cannot happen in `s` leaves `s` as it is. */
  function Step(s: State, a: Action): State {
    match a
    case Emit(e) =>
      if s.store.closed then s
      else
        var t := s.(store := Accept(s.store, e));
        if Urgent(s, e) then StartFlush(t) else t.(timer := true)
    case Fire => if s.timer then StartFlush(s.(timer := false)) else s
    case Flush => StartFlush(s)
    case Settle => s.(flushing := false)
    case BeginClose => if s.store.closed then s else s.(store := MarkClosed(s.store), timer := false)
    case FinishClose =>
      if !s.store.closed || s.flushing || s.store.buffer == [] then s else StartFlush(s)
  }

  function After(s: State, actions: seq<Action>): State {
    if actions == [] then s else Step(After(s, actions[..|actions| - 1]), actions[|actions| - 1])
  }

  // ---- Every run is a run of the store ----

  lemma StepConsistent(s: State, a: Action)
    requires s.store.cap >= 1 && Consistent(s.store)
    ensures Consistent(Step(s, a).store) && Step(s, a).store.cap == s.store.cap
  {
    match a
    case Emit(e) =>
      ApplyConsistent(s.store, Put(e));
      ApplyConsistent(Accept(s.store, e), Take);
    case BeginClose => ApplyConsistent(s.store, Shut);
    case _ => ApplyConsistent(s.store, Take);
  }

  lemma {:induction false} EveryRunConsistent(cap: nat, batchSize: int, actions: seq<Action>)
    requires cap >= 1
    ensures var s := After(Init(cap, batchSize), actions); Consistent(s.store) && s.store.cap == cap
  {
    if actions != [] {
      EveryRunConsistent(cap, batchSize, actions[..|actions| - 1]);
      StepConsistent(After(Init(cap, batchSize), actions[..|actions| - 1]), actions[|actions| - 1]);
    }
  }

  // ---- Stranded events ----

  /** Something is buffered, and neither a timer nor a flush in flight nor a close is there to take it. */
  predicate Stranded(s: State) { s.store.buffer != [] && !s.timer && !s.flushing && !s.store.closed }

  /** A request for a flush that comes during another one and is dropped: an urgent event, or the timer going off
      with something buffered. */
  predicate Ignored(s: State, a: Action) {
    s.flushing && match a
      case Emit(e) => !s.store.closed && Urgent(s, e)
      case Fire => s.timer && s.store.buffer != []
      case _ => false
  }

  function IgnoredIn(s: State, actions: seq<Action>): nat {
    if actions == [] then 0
    else
      var before, last := actions[..|actions| - 1], actions[|actions| - 1];
      IgnoredIn(s, before) + if Ignored(After(s, before), last) then 1 else 0
  }

  /** A timer is set for what is buffered. */
  predicate TimerRuns(s: State) { s.store.buffer != [] && !s.store.closed ==> s.timer }

  lemma StepKeepsTimer(s: State, a: Action)
    requires TimerRuns(s) && !Ignored(s, a)
    ensures TimerRuns(Step(s, a))
  {
  }

  /** While no request is ignored, a timer runs for whatever is buffered, also behind a flush in flight. */
  lemma {:induction false} TimerRunsUnlessIgnored(cap: nat, batchSize: int, actions: seq<Action>)
    requires IgnoredIn(Init(cap, batchSize), actions) == 0
    ensures TimerRuns(After(Init(cap, batchSize), actions))
  {
    if actions != [] {
      TimerRunsUnlessIgnored(cap, batchSize, actions[..|actions| - 1]);
      StepKeepsTimer(After(Init(cap, batchSize), actions[..|actions| - 1]), actions[|actions| - 1]);
    }
  }

  ghost predicate NeverStranded(cap: nat, batchSize: int, k: nat) {
    forall actions: seq<Action> | IgnoredIn(Init(cap, batchSize), actions) <= k ::
      !Stranded(After(Init(cap, batchSize), actions))
  }

  lemma OneMore(s: State, actions: seq<Action>, a: Action)
    ensures After(s, actions + [a]) == Step(After(s, actions), a)
    ensures IgnoredIn(s, actions + [a]) == IgnoredIn(s, actions) + if Ignored(After(s, actions), a) then 1 else 0
  {
    assert (actions + [a])[..|actions|] == actions;
  }

  /** A flush in flight that took the one event there was. */
  lemma FlushInFlight(cap: nat, batchSize: int) returns (actions: seq<Action>, s: State)
    requires cap >= 1
    ensures s == After(Init(cap, batchSize), actions) && IgnoredIn(Init(cap, batchSize), actions) == 0
    ensures s.flushing && !s.timer && s.store.buffer == [] && !s.store.closed
    ensures s.store.cap == cap && s.batchSize == batchSize
  {
    var start, e := Init(cap, batchSize), Event("job.error", "");
    assert e.eventType[|e.eventType| - 6..] == ".error";
    OneMore(start, [], Emit(e));
    actions, s := [] + [Emit(e)], Step(start, Emit(e));
  }

  /** An urgent event during a flush is left behind when the flush is over. */
  lemma UrgentCanStrand(cap: nat, batchSize: int) returns (actions: seq<Action>)
    requires cap >= 1
    ensures IgnoredIn(Init(cap, batchSize), actions) == 1 && Stranded(After(Init(cap, batchSize), actions))
  {
    var start, e := Init(cap, batchSize), Event("job.error", "");
    assert e.eventType[|e.eventType| - 6..] == ".error";
    var s;
    actions, s := FlushInFlight(cap, batchSize);
    OneMore(start, actions, Emit(e));
    OneMore(start, actions + [Emit(e)], Settle);
    actions := actions + [Emit(e)] + [Settle];
  }

  /** So is an ordinary one when its timer goes off during the flush. */
  lemma TimerCanStrand(cap: nat, batchSize: int, e: Event) returns (actions: seq<Action>)
    requires cap >= 1 && batchSize >= 2 && !IsCritical(e)
    ensures IgnoredIn(Init(cap, batchSize), actions) == 1 && Stranded(After(Init(cap, batchSize), actions))
  {
    var start := Init(cap, batchSize);
    var s;
    actions, s := FlushInFlight(cap, batchSize);
    OneMore(start, actions, Emit(e));
    OneMore(start, actions + [Emit(e)], Fire);
    OneMore(start, actions + [Emit(e)] + [Fire], Settle);
    actions := actions + [Emit(e)] + [Fire] + [Settle];
  }

  /** No event is ever stranded in any run with at most `k` ignored requests, exactly when that allows none. */
  lemma NeverStrandedIff(cap: nat, batchSize: int, k: nat)
    requires cap >= 1
    ensures NeverStranded(cap, batchSize, k) <==> k == 0
  {
    if k == 0 {
      forall actions: seq<Action> | IgnoredIn(Init(cap, batchSize), actions) <= k
        ensures !Stranded(After(Init(cap, batchSize), actions))
      {
        TimerRunsUnlessIgnored(cap, batchSize, actions);
      }
    } else {
      var actions := UrgentCanStrand(cap, batchSize);
      assert IgnoredIn(Init(cap, batchSize), actions) <= k;
    }
  }

  /** A stranded event stays until the application emits, flushes or closes: nothing else moves such a state. */
  lemma StrandedStays(s: State, a: Action)
    requires Stranded(s) && !a.Emit? && !a.Flush? && !a.BeginClose?
    ensures Step(s, a) == s
  {
  }
}
