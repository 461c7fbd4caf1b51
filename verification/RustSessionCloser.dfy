/** The Rust runner's `close`: its two sections under the lock, and the polling of a caller that finds a close
    under way. */
module RustSessionCloser {
  import opened Results
  import opened CloseProtocol

  const POLLS := 50

  class Inner {
    var finalSettle: Answer
    var closeStarted: bool
    ghost var ends: nat
    ghost var finalizations: nat
    ghost var stored: Option<Answer>

    /** Rust has no channel to close; the model's flag follows `stored`. */
    ghost function Snapshot(callers: map<CallerId, At>): State
      reads this
    {
      State(Rust, finalSettle, closeStarted, stored.Some?, false, ends, finalizations, stored, callers)
    }

    constructor ()
      ensures Snapshot(map[]) == Init(Rust)
    {
      finalSettle, closeStarted := None, false;
      ends, finalizations, stored := 0, 0, None;
    }

    method Enter(id: CallerId, ghost callers: map<CallerId, At>) returns (at: At)
      requires id !in callers
      modifies this`closeStarted
      ensures at == if finalSettle.Some? then Done(finalSettle) else if old(closeStarted) then Waiting else Ending
      ensures Snapshot(callers[id := at]) == Step(old(Snapshot(callers)), Call(id))
    {
      if finalSettle.Some? {
        return Done(finalSettle);
      }
      if closeStarted {
        return Waiting;
      }
      closeStarted := true;
      return Ending;
    }

    method StoreOutcome(id: CallerId, outcome: Settlement, ghost callers: map<CallerId, At>)
      requires Is(Snapshot(callers), id, Storing(Some(outcome)))
      modifies this`finalSettle, this`stored
      ensures finalSettle == Some(outcome)
      ensures Snapshot(callers[id := Done(Some(outcome))]) == Step(old(Snapshot(callers)), Store(id))
    {
      finalSettle, stored := Some(outcome), Some(Some(outcome));
    }

    /** One look at the outcome by a waiting caller. */
    method Poll(id: CallerId, ghost callers: map<CallerId, At>) returns (at: At)
      requires Is(Snapshot(callers), id, Waiting)
      ensures at == if finalSettle.Some? then Done(finalSettle) else Waiting
      ensures Snapshot(callers[id := at]) == Step(Snapshot(callers), Wake(id))
    {
      assert callers[id := Waiting] == callers;
      at := if finalSettle.Some? then Done(finalSettle) else Waiting;
    }
  }

  /** `seen(i)` is what the `i`th look finds: a waiter returns the first outcome within 50 looks, or fails. */
  method WaitForOutcome(seen: nat -> Answer) returns (at: At, polls: nat)
    ensures 1 <= polls <= 50 && forall i: nat :: i < polls - 1 ==> seen(i).None?
    ensures at == if seen(polls - 1).Some? then Done(seen(polls - 1)) else Failed
    ensures at.Failed? <==> forall i: nat :: i < 50 ==> seen(i).None?
  {
    polls := 0;
    while polls < POLLS
      invariant 0 <= polls <= POLLS && forall i: nat :: i < polls ==> seen(i).None?
    {
      var outcome := seen(polls);
      polls := polls + 1;
      if outcome.Some? {
        return Done(outcome), polls;
      }
    }
    return Failed, polls;
  }
}
