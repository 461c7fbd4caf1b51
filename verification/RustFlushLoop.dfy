/** The Rust emitter as its tasks interleave. An emitter lets go of the lock before it notifies, so several
    may have pushed and not notified yet; the loop looks at `closed` only after each flush. */
module RustFlushLoop {
  import opened Results
  import opened TelemetryStore

  datatype LoopAt = Waiting | Draining | Sending | Checking | LastDraining | LastSending | Returned

  /** `permit` is the one wake-up a `Notify` stores; `notifying` counts emitters, and `closing` closers,
      between the lock and their `notify_one`. */
  datatype State = State(store: Store, batchSize: nat, permit: bool, notifying: nat, closing: nat, loop: LoopAt)

  datatype Action =
    | Push(event: Event) | NotifyFlush
    | BeginClose | NotifyClose
    | TakePermit | Timeout | Drain | Sent | Check | LastDrain | LastSent

  function Init(cap: nat, batchSize: nat): State {
    State(Empty(cap), batchSize, false, 0, 0, Waiting)
  }

  predicate Urgent(s: State, e: Event) {
    IsCritical(e) || |s.store.buffer| >= s.batchSize
  }

  /** An action that cannot happen in `s` leaves `s` as it is. */
  function Step(s: State, a: Action): State {
    match a
    case Push(e) =>
      if s.store.closed then s
      else
        var t := s.(store := Accept(s.store, e));
        if Urgent(t, e) then t.(notifying := s.notifying + 1) else t
    case NotifyFlush => if s.notifying > 0 then s.(permit := true, notifying := s.notifying - 1) else s
    case BeginClose =>
      if s.store.closed then s else s.(store := MarkClosed(s.store), closing := s.closing + 1)
    case NotifyClose => if s.closing > 0 then s.(permit := true, closing := s.closing - 1) else s
    case TakePermit => if s.loop.Waiting? && s.permit then s.(permit := false, loop := Draining) else s
    case Timeout => if s.loop.Waiting? then s.(loop := Draining) else s
    case Drain => if s.loop.Draining? then s.(store := HandOff(s.store), loop := Sending) else s
    case Sent => if s.loop.Sending? then s.(loop := Checking) else s
    case Check => if s.loop.Checking? then s.(loop := if s.store.closed then LastDraining else Waiting) else s
    case LastDrain => if s.loop.LastDraining? then s.(store := HandOff(s.store), loop := LastSending) else s
    case LastSent => if s.loop.LastSending? then s.(loop := Returned) else s
  }

  function After(s: State, actions: seq<Action>): State {
    if actions == [] then s else Step(After(s, actions[..|actions| - 1]), actions[|actions| - 1])
  }

  // ---- What every reachable state keeps ----

  ghost predicate NeedsFlush(s: State) {
    s.store.buffer != [] &&
    (|s.store.buffer| >= s.batchSize || exists e :: e in s.store.buffer && IsCritical(e))
  }

  /** No wake-up is lost: a permit is stored, an emitter is about to give one, or the loop is about to drain. */
  ghost predicate WillFlush(s: State) {
    NeedsFlush(s) ==> s.permit || s.notifying > 0 || s.loop.Draining? || s.loop.LastDraining?
  }

  ghost predicate LastPass(s: State) {
    && (s.loop.LastDraining? || s.loop.LastSending? || s.loop.Returned? ==> s.store.closed)
    && (s.loop.LastSending? || s.loop.Returned? ==> s.store.buffer == [])
  }

  /** A loop that waits on a closed emitter is about to be woken. */
  ghost predicate CloseWakes(s: State) {
    s.store.closed && s.loop.Waiting? ==> s.permit || s.closing > 0
  }

  ghost predicate Inv(s: State) {
    s.store.cap >= 1 && Consistent(s.store) && WillFlush(s) && LastPass(s) && CloseWakes(s)
  }

  lemma PushKeepsWakeups(s: State, e: Event)
    requires Inv(s) && !s.store.closed
    ensures WillFlush(Step(s, Push(e)))
  {
    var t := Step(s, Push(e));
    if NeedsFlush(t) && !Urgent(s.(store := t.store), e) {
      var x :| x in t.store.buffer && IsCritical(x);
      assert x in s.store.buffer;
    }
  }

  lemma PushKeepsInv(s: State, e: Event)
    requires Inv(s)
    ensures Inv(Step(s, Push(e)))
  {
    ApplyConsistent(s.store, Put(e));
    if !s.store.closed { PushKeepsWakeups(s, e); }
  }

  lemma DrainKeepsInv(s: State, a: Action)
    requires Inv(s) && (a.Drain? || a.LastDrain?)
    ensures Inv(Step(s, a))
  {
    ApplyConsistent(s.store, Take);
  }

  lemma OtherStepsKeepInv(s: State, a: Action)
    requires Inv(s) && !a.Push? && !a.BeginClose? && !a.Drain? && !a.LastDrain?
    ensures Inv(Step(s, a))
  {
    assert Step(s, a).store == s.store;
  }

  lemma BeginCloseKeepsInv(s: State)
    requires Inv(s)
    ensures Inv(Step(s, BeginClose))
  {
    ApplyConsistent(s.store, Shut);
  }

  lemma StepKeepsInv(s: State, a: Action)
    requires Inv(s)
    ensures Inv(Step(s, a))
  {
    match a
    case Push(e) => PushKeepsInv(s, e);
    case BeginClose => BeginCloseKeepsInv(s);
    case Drain => DrainKeepsInv(s, a);
    case LastDrain => DrainKeepsInv(s, a);
    case _ => OtherStepsKeepInv(s, a);
  }

  /** Every interleaving: the store is consistent and no wake-up, for a flush or for the close, is lost. */
  lemma {:induction false} EveryInterleaving(cap: nat, batchSize: nat, actions: seq<Action>)
    requires cap >= 1
    ensures Inv(After(Init(cap, batchSize), actions))
  {
    if actions != [] {
      EveryInterleaving(cap, batchSize, actions[..|actions| - 1]);
      StepKeepsInv(After(Init(cap, batchSize), actions[..|actions| - 1]), actions[|actions| - 1]);
    }
  }

  // ---- Closing ----

  /** When the loop has returned the buffer is empty, and all that was in it when the emitter was marked
      closed, and nothing emitted later, has been handed off. */
  lemma CloseDrains(cap: nat, batchSize: nat, actions: seq<Action>)
    requires cap >= 1 && After(Init(cap, batchSize), actions).loop.Returned?
    ensures Drained(After(Init(cap, batchSize), actions).store)
  {
    EveryInterleaving(cap, batchSize, actions);
  }

  lemma NothingMovesReturned(s: State, a: Action)
    requires Inv(s) && s.loop.Returned?
    ensures Step(s, a).loop.Returned? && Step(s, a).store == s.store
  {
  }

  lemma {:induction false} ReturnedIsFinal(s: State, more: seq<Action>)
    requires Inv(s) && s.loop.Returned?
    ensures After(s, more).loop.Returned? && After(s, more).store == s.store && Inv(After(s, more))
  {
    if more != [] {
      ReturnedIsFinal(s, more[..|more| - 1]);
      var t, a := After(s, more[..|more| - 1]), more[|more| - 1];
      assert After(s, more) == Step(t, a);
      StepKeepsInv(t, a);
      NothingMovesReturned(t, a);
    }
  }

  lemma {:induction false} AfterAppend(s: State, actions: seq<Action>, more: seq<Action>)
    ensures After(s, actions + more) == After(After(s, actions), more)
  {
    if more == [] {
      assert actions + more == actions;
    } else {
      var last := |more| - 1;
      AfterAppend(s, actions, more[..last]);
      assert (actions + more)[..|actions + more| - 1] == actions + more[..last];
    }
  }

  /** ... and it stays so. */
  lemma StaysDrained(cap: nat, batchSize: nat, actions: seq<Action>, more: seq<Action>)
    requires cap >= 1 && After(Init(cap, batchSize), actions).loop.Returned?
    ensures After(Init(cap, batchSize), actions + more).loop.Returned?
    ensures After(Init(cap, batchSize), actions + more).store == After(Init(cap, batchSize), actions).store
  {
    EveryInterleaving(cap, batchSize, actions);
    AfterAppend(Init(cap, batchSize), actions, more);
    ReturnedIsFinal(After(Init(cap, batchSize), actions), more);
  }

  /** The close itself is never missed: until the loop has returned, something can still move it. */
  lemma CloseIsNoticed(cap: nat, batchSize: nat, actions: seq<Action>)
    requires cap >= 1
    ensures var s := After(Init(cap, batchSize), actions);
            s.store.closed && !s.loop.Returned? ==>
              exists a :: a in {NotifyClose, TakePermit, Drain, Sent, Check, LastDrain, LastSent} && Step(s, a) != s
  {
    EveryInterleaving(cap, batchSize, actions);
    var s := After(Init(cap, batchSize), actions);
    if s.store.closed && !s.loop.Returned? { ClosedMovesOn(s); }
  }

  lemma ClosedMovesOn(s: State)
    requires Inv(s) && s.store.closed && !s.loop.Returned?
    ensures exists a :: a in {NotifyClose, TakePermit, Drain, Sent, Check, LastDrain, LastSent} && Step(s, a) != s
  {
    var a := match s.loop
      case Waiting => if s.permit then TakePermit else NotifyClose
      case Draining => Drain
      case Sending => Sent
      case Checking => Check
      case LastDraining => LastDrain
      case _ => LastSent;
    assert Step(s, a).loop != s.loop || Step(s, a).closing != s.closing;
  }

  // ---- The loop can always return once closed ----

  ghost predicate CanReturn(s: State) { exists more: seq<Action> :: After(s, more).loop.Returned? }

  lemma OneStepEarlier(s: State, a: Action)
    requires CanReturn(Step(s, a))
    ensures CanReturn(s)
  {
    var more :| After(Step(s, a), more).loop.Returned?;
    AfterAppend(s, [a], more);
    assert [a][..0] == [] && After(s, [a]) == Step(After(s, []), a);
    assert After(s, [a] + more).loop.Returned?;
  }

  /** What the loop does next of its own; a wait ends with the timer, if nothing else. */
  function Next(at: LoopAt): Action {
    match at
    case Waiting => Timeout
    case Draining => Drain
    case Sending => Sent
    case Checking => Check
    case LastDraining => LastDrain
    case _ => LastSent
  }

  /** How many steps the loop of a closed emitter is from returning. */
  function Left(at: LoopAt): nat {
    match at
    case Waiting => 6
    case Draining => 5
    case Sending => 4
    case Checking => 3
    case LastDraining => 2
    case LastSending => 1
    case Returned => 0
  }

  lemma NextIsNearer(s: State)
    requires s.store.closed && !s.loop.Returned?
    ensures var t := Step(s, Next(s.loop)); t.store.closed && Left(t.loop) < Left(s.loop)
  {
  }

  lemma {:induction false} FromAnywhere(s: State)
    requires s.store.closed
    ensures CanReturn(s)
    decreases Left(s.loop)
  {
    if s.loop.Returned? {
      assert After(s, []) == s;
      assert After(s, []).loop.Returned?;
    } else {
      NextIsNearer(s);
      FromAnywhere(Step(s, Next(s.loop)));
      OneStepEarlier(s, Next(s.loop));
    }
  }

  /** From every reachable state of a closed emitter the loop can still return. */
  lemma ClosedCanReturn(cap: nat, batchSize: nat, actions: seq<Action>)
    requires cap >= 1 && After(Init(cap, batchSize), actions).store.closed
    ensures CanReturn(After(Init(cap, batchSize), actions))
  {
    FromAnywhere(After(Init(cap, batchSize), actions));
  }
}
