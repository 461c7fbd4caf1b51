/** The Rust session runner's shared state: each stretch of `handle_balance` and `refill` under the lock, with
    the request it leads to, is one step of the refill protocol, whatever other handlers are at work. */
module RustSessionRunner {
  import opened Results
  import opened RefillProtocol

  datatype Next = Nothing | Warn(reason: string) | Consult(currentMax: int)

  class Inner {
    const refill: string
    const hasApprover: bool
    var maxTotalUnits: int                  // of the handle, as is spendAuthorization
    var spendAuthorization: nat
    var pendingRefillKey: Option<Key>
    var pendingRefill: Option<Refill>
    var pendingMaxTotalUnits: Option<int>
    var world: World                        // LOC, the broker and the network
    ghost var proofKept: bool
    ghost var log: seq<Note>
    ghost var settledCap: int
    ghost var refills: nat

    ghost function Snapshot(tasks: map<TaskId, At>): State
      reads this
    {
      State(Client(Rust, maxTotalUnits, spendAuthorization, pendingRefillKey, pendingRefill, pendingMaxTotalUnits,
                   proofKept),
            world, tasks, log, settledCap, refills, false, false)
    }

    /** What the `expect` in `refill` relies on. */
    predicate Valid()
      reads this
    {
      pendingRefill.Some? ==> pendingMaxTotalUnits.Some?
    }

    constructor (cap: int, authorization: nat, refill: string, hasApprover: bool)
      ensures Valid() && Snapshot(map[]) == Init(Rust, cap, authorization)
      ensures this.refill == refill && this.hasApprover == hasApprover
    {
      this.refill := refill;
      this.hasApprover := hasApprover;
      maxTotalUnits, spendAuthorization := cap, authorization;
      pendingRefillKey, pendingRefill, pendingMaxTotalUnits := None, None, None;
      world := World(0, {}, {}, cap, map[], cap, {});
      proofKept, log, settledCap, refills := false, [], cap, 0;
    }

    /** What a balance event leads to; the cap is read here and compared only after the application answers. */
    method ReadBalance(b: Balance, t: TaskId, ghost tasks: map<TaskId, At>) returns (next: Next)
      requires t !in tasks
      ensures next.Consult? <==> b.status == "low" && !b.willRefuseNextRefill && refill != "bounded" && hasApprover
      ensures next.Consult? ==>
              Snapshot(tasks[t := Consulting(next.currentMax)]) ==
              Step(Snapshot(tasks), Start(t, b.claimedUnits))
      ensures b.status == "low" && !b.willRefuseNextRefill && refill == "bounded" ==>
              next == Warn("bounded_runway_exhausting")
      ensures b.status == "low" && !b.willRefuseNextRefill && refill != "bounded" && !hasApprover ==>
              next == Warn("wholesale_cap_extension_required")
      ensures next.Consult? ==> next.currentMax == maxTotalUnits
      ensures next.Nothing? <==> !b.willRefuseNextRefill && b.status != "low"
      ensures b.willRefuseNextRefill ==> next == Warn("broker_will_refuse_next_refill")
    {
      if b.willRefuseNextRefill {
        return Warn("broker_will_refuse_next_refill");
      }
      if b.status != "low" {
        return Nothing;
      }
      if refill == "bounded" {
        return Warn("bounded_runway_exhausting");
      }
      if !hasApprover {
        return Warn("wholesale_cap_extension_required");
      }
      return Consult(maxTotalUnits);
    }

    method WeighAnswer(answer: Option<int>, observed: int, currentMax: int, t: TaskId, ghost tasks: map<TaskId, At>)
      returns (asked: Option<Body>)
      requires t in tasks && tasks[t] == Consulting(currentMax)
      ensures asked.Some? <==> answer.Some? && answer.value > currentMax
      ensures asked.Some? ==> asked.value.observedUnits == observed && asked.value.maxTotalUnits == answer.value
      ensures Snapshot(if asked.Some? then tasks[t := Approved(asked.value)] else tasks - {t}) ==
              Step(Snapshot(tasks), if answer.None? then Action.Fail(t) else Approve(t, Body(observed, answer.value)))
    {
      if answer.None? || answer.value <= currentMax {
        return None;
      }
      return Some(Body(observed, answer.value));
    }

    /** The first lock of `refill`, and the request to LOC when no refill is stored. */
    method BeginRefill(asked: Body, t: TaskId, ghost tasks: map<TaskId, At>)
      returns (key: Key, existing: Option<Refill>, max: int)
      requires Valid() && t in tasks && tasks[t] == Approved(asked)
      modifies this`pendingRefillKey, this`world, this`log
      ensures Valid() && existing == old(pendingRefill) && pendingRefillKey == Some(key)
      ensures Snapshot(tasks[t := if existing.Some? then Holding(existing.value, max) else Asking(key, asked)]) ==
              Step(old(Snapshot(tasks)), Enter(t))
      ensures existing.None? ==> max == asked.maxTotalUnits
      ensures existing.Some? ==> Some(max) == pendingMaxTotalUnits
      ensures old(pendingRefillKey.Some?) ==> pendingRefillKey == old(pendingRefillKey)
      ensures world.revisionRequests == old(world.revisionRequests) + if existing.None? then {(key, asked)} else {}
    {
      if pendingRefillKey.None? {
        pendingRefillKey := Some(world.nextKey);
        world := world.(nextKey := world.nextKey + 1);
      }
      key, existing := pendingRefillKey.value, pendingRefill;
      if existing.Some? {
        max := pendingMaxTotalUnits.value;
        return;
      }
      max := asked.maxTotalUnits;
      world := world.(revisionRequests := world.revisionRequests + {(key, asked)});
      log := log + [Asked(key, asked)];
    }

    /** The second lock, with LOC's answer; without one nothing is stored and the key stays. */
    method StoreRefill(key: Key, asked: Body, t: TaskId, ghost tasks: map<TaskId, At>) returns (answer: Refill)
      requires t in tasks && tasks[t] == Asking(key, asked)
      requires key in world.revisions && world.revisions[key].body == asked
      modifies this`pendingRefill, this`pendingMaxTotalUnits
      ensures answer == world.revisions[key].answer
      ensures pendingRefill == Some(answer) && pendingMaxTotalUnits == Some(asked.maxTotalUnits)
      ensures Valid() && Snapshot(tasks[t := Holding(answer, asked.maxTotalUnits)]) ==
              Step(old(Snapshot(tasks)), AskAnswered(t))
    {
      answer := world.revisions[key].answer;
      pendingRefill, pendingMaxTotalUnits := Some(answer), Some(asked.maxTotalUnits);
    }

    method PostTopup(refill: Refill, max: int, signs: bool, t: TaskId, ghost tasks: map<TaskId, At>)
      returns (sent: bool)
      requires t in tasks && tasks[t] == Holding(refill, max)
      modifies this`world, this`log, this`proofKept
      ensures sent <==> refill.wholesale && refill.authorization.Some? && signs
      ensures world.topupRequests == old(world.topupRequests) + if sent then {refill} else {}
      ensures Snapshot(if sent then tasks[t := Posting(refill, max)] else tasks - {t}) ==
              Step(old(Snapshot(tasks)), if Usable(refill) && !signs then Action.Fail(t) else Post(t))
    {
      if !Usable(refill) || !signs {
        return false;
      }
      world := world.(topupRequests := world.topupRequests + {refill});
      log, proofKept := log + [ToppedUp(refill)], true;
      return true;
    }

    /** The third lock, once the broker accepted: the authorization first, the cap only if its proof can be made. */
    method RecordTopup(refill: Refill, max: int, signs: bool, t: TaskId, ghost tasks: map<TaskId, At>)
      requires t in tasks && tasks[t] == Accepted(refill, max) && refill.authorization.Some?
      modifies this`spendAuthorization, this`maxTotalUnits
      ensures Snapshot(if signs then tasks[t := Updated(max)] else tasks - {t}) ==
              Step(old(Snapshot(tasks)), if signs then Record(t) else RecordAuthorizationOnly(t))
      ensures maxTotalUnits == if signs then max else old(maxTotalUnits)
      ensures spendAuthorization == refill.authorization.value.id
    {
      spendAuthorization := refill.authorization.value.id;
      if !signs {
        return;
      }
      maxTotalUnits := max;
    }

    /** The last lock. It is not reached when the accepted top-up's reply is unreadable. */
    method ClearPending(max: int, t: TaskId, ghost tasks: map<TaskId, At>)
      requires t in tasks && tasks[t] == Updated(max)
      modifies this`pendingRefillKey, this`pendingRefill, this`pendingMaxTotalUnits, this`proofKept,
               this`log, this`settledCap, this`refills
      ensures Valid() && Snapshot(tasks - {t}) == Step(old(Snapshot(tasks)), Finish(t))
      ensures pendingRefill.None? && pendingRefillKey.None? && pendingMaxTotalUnits.None?
    {
      pendingRefillKey, pendingRefill, pendingMaxTotalUnits := None, None, None;
      proofKept, log, settledCap, refills := false, log + [Refilled(max)], max, refills + 1;
    }
  }
}
