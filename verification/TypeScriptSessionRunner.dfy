/** The TypeScript session runner: each stretch of `onBalance`, `refill` and `postTopup` between two awaits is one
    step of the refill protocol, whatever other handlers are at work. */
module TypeScriptSessionRunner {
  import opened Results
  import opened RefillProtocol

  /** `LostCap` is the error for a stored refill without its cap. */
  datatype Next = Nothing | Warn(reason: string) | LostCap | Resume(asked: Body) | Consult

  class SessionRunner {
    const refillMode: string
    const hasApprover: bool
    var maxTotalUnits: int                        // of the handle, as is spendAuthorization
    var spendAuthorization: nat
    var pendingRefillKey: Option<Key>
    var pendingRefill: Option<Refill>
    var pendingRefillMaxTotalUnits: Option<int>
    var pendingRefillProof: bool                  // whether there is one
    var world: World                              // LOC, the broker and the network
    ghost var log: seq<Note>
    ghost var settledCap: int
    ghost var refills: nat
    ghost var lostCap: bool
    ghost var lostProof: bool

    ghost function Snapshot(tasks: map<TaskId, At>): State
      reads this
    {
      State(Client(TypeScript, maxTotalUnits, spendAuthorization, pendingRefillKey, pendingRefill,
                   pendingRefillMaxTotalUnits, pendingRefillProof),
            world, tasks, log, settledCap, refills, lostCap, lostProof)
    }

    constructor (cap: int, authorization: nat, refillMode: string, hasApprover: bool)
      ensures Snapshot(map[]) == Init(TypeScript, cap, authorization)
      ensures this.refillMode == refillMode && this.hasApprover == hasApprover
    {
      this.refillMode := refillMode;
      this.hasApprover := hasApprover;
      maxTotalUnits, spendAuthorization := cap, authorization;
      pendingRefillKey, pendingRefill, pendingRefillMaxTotalUnits, pendingRefillProof := None, None, None, false;
      world := World(0, {}, {}, cap, map[], cap, {});
      log, settledCap, refills, lostCap, lostProof := [], cap, 0, false, false;
    }

    /** `onBalance` as far as its first await. A stored refill is taken up without asking the application. */
    method OnBalance(b: Balance, t: TaskId, ghost tasks: map<TaskId, At>) returns (next: Next)
      requires t !in tasks
      modifies this`lostCap
      ensures b.willRefuseNextRefill ==> next == Warn("broker_will_refuse_next_refill")
      ensures next.Nothing? <==> !b.willRefuseNextRefill && b.status != "low"
      ensures b.status == "low" && !b.willRefuseNextRefill && refillMode == "bounded" ==>
              next == Warn("bounded_runway_exhausting")
      ensures b.status == "low" && !b.willRefuseNextRefill && refillMode != "bounded" && pendingRefill.None? &&
              !hasApprover ==>
              next == Warn("wholesale_cap_extension_required")
      ensures next.Resume? ==> Some(next.asked.maxTotalUnits) == pendingRefillMaxTotalUnits
      ensures next.Resume? ==> next.asked.observedUnits == b.claimedUnits
      ensures next.Nothing? || next.Warn? ==> Snapshot(tasks) == old(Snapshot(tasks))
      ensures next.LostCap? ==> Snapshot(tasks) == Step(old(Snapshot(tasks)), Start(t, b.claimedUnits))
      ensures next.Resume? ==>
              Snapshot(tasks[t := Approved(next.asked)]) ==
              Step(old(Snapshot(tasks)), Start(t, b.claimedUnits))
      ensures next.Consult? ==>
              Snapshot(tasks[t := Consulting(maxTotalUnits)]) ==
              Step(old(Snapshot(tasks)), Start(t, b.claimedUnits))
      ensures next.LostCap? || next.Resume? <==>
              !b.willRefuseNextRefill && b.status == "low" && refillMode != "bounded" && pendingRefill.Some?
      ensures next.Consult? <==>
              !b.willRefuseNextRefill && b.status == "low" && refillMode != "bounded" && pendingRefill.None? &&
              hasApprover
    {
      if b.willRefuseNextRefill {
        return Warn("broker_will_refuse_next_refill");
      }
      if b.status != "low" {
        return Nothing;
      }
      if refillMode == "bounded" {
        return Warn("bounded_runway_exhausting");
      }
      if pendingRefill.Some? {
        if pendingRefillMaxTotalUnits.None? {
          lostCap := true;
          return LostCap;
        }
        return Resume(Body(b.claimedUnits, pendingRefillMaxTotalUnits.value));
      }
      if !hasApprover {
        return Warn("wholesale_cap_extension_required");
      }
      return Consult;
    }

    /** The application's answer against the cap the handle has by then. */
    method WeighAnswer(answer: Option<int>, observed: int, t: TaskId, ghost tasks: map<TaskId, At>)
      returns (asked: Option<Body>)
      requires t in tasks && tasks[t].Consulting?
      ensures asked.Some? <==> answer.Some? && answer.value > maxTotalUnits
      ensures asked.Some? ==> asked.value.observedUnits == observed && asked.value.maxTotalUnits == answer.value
      ensures Snapshot(if asked.Some? then tasks[t := Approved(asked.value)] else tasks - {t}) ==
              Step(Snapshot(tasks), if answer.None? then Action.Fail(t) else Approve(t, Body(observed, answer.value)))
    {
      if answer.None? || answer.value <= maxTotalUnits {
        return None;
      }
      return Some(Body(observed, answer.value));
    }

    /** `refill` as far as the request to LOC, or past it when a refill is stored. */
    method BeginRefill(asked: Body, t: TaskId, ghost tasks: map<TaskId, At>) returns (key: Key)
      requires t in tasks && tasks[t] == Approved(asked)
      modifies this`pendingRefillKey, this`world, this`log
      ensures pendingRefillKey == Some(key) &&
              (old(pendingRefillKey.Some?) ==> pendingRefillKey == old(pendingRefillKey))
      ensures Snapshot(tasks[t := if pendingRefill.Some? then Holding(pendingRefill.value, asked.maxTotalUnits)
                                  else Asking(key, asked)]) == Step(old(Snapshot(tasks)), Enter(t))
      ensures world.revisionRequests ==
              old(world.revisionRequests) + if pendingRefill.None? then {(key, asked)} else {}
    {
      if pendingRefillKey.None? {
        pendingRefillKey := Some(world.nextKey);
        world := world.(nextKey := world.nextKey + 1);
      }
      key := pendingRefillKey.value;
      if pendingRefill.None? {
        world := world.(revisionRequests := world.revisionRequests + {(key, asked)});
        log := log + [Asked(key, asked)];
      }
    }

    /** LOC's reply; one without a body is stored too, and fails in `postTopup`. */
    method StoreReply(key: Key, asked: Body, empty: bool, t: TaskId, ghost tasks: map<TaskId, At>)
      requires t in tasks && tasks[t] == Asking(key, asked)
      requires !empty ==> key in world.revisions && world.revisions[key].body == asked
      modifies this`pendingRefill, this`pendingRefillMaxTotalUnits
      ensures pendingRefill.Some? <==> !empty
      ensures !empty ==> pendingRefill == Some(world.revisions[key].answer)
      ensures pendingRefillMaxTotalUnits == Some(asked.maxTotalUnits)
      ensures Snapshot(if empty then tasks - {t} else tasks[t := Holding(pendingRefill.value, asked.maxTotalUnits)]) ==
              Step(old(Snapshot(tasks)), if empty then AskEmpty(t) else AskAnswered(t))
    {
      pendingRefill := if empty then None else Some(world.revisions[key].answer);
      pendingRefillMaxTotalUnits := Some(asked.maxTotalUnits);
    }

    method PostTopup(refill: Refill, max: int, signs: bool, t: TaskId, ghost tasks: map<TaskId, At>)
      returns (sent: bool)
      requires t in tasks && tasks[t] == Holding(refill, max)
      modifies this`world, this`log, this`pendingRefillProof
      ensures sent <==> refill.wholesale && refill.authorization.Some? && signs
      ensures world.topupRequests == old(world.topupRequests) + if sent then {refill} else {}
      ensures pendingRefillProof == (old(pendingRefillProof) || sent)
      ensures Snapshot(if sent then tasks[t := Posting(refill, max)] else tasks - {t}) ==
              Step(old(Snapshot(tasks)), if Usable(refill) && !signs then Action.Fail(t) else Post(t))
    {
      if !Usable(refill) || !signs {
        return false;
      }
      pendingRefillProof := true;
      world := world.(topupRequests := world.topupRequests + {refill});
      log := log + [ToppedUp(refill)];
      return true;
    }

    /** The handle takes the authorization, the kept proof and the cap of the refill this handler held. */
    method UpdateHandle(refill: Refill, max: int, t: TaskId, ghost tasks: map<TaskId, At>) returns (ok: bool)
      requires t in tasks && tasks[t] == Accepted(refill, max) && refill.authorization.Some?
      modifies this`spendAuthorization, this`maxTotalUnits, this`lostProof
      ensures ok ==> spendAuthorization == refill.authorization.value.id && maxTotalUnits == max
      ensures !ok ==> spendAuthorization == old(spendAuthorization) && maxTotalUnits == old(maxTotalUnits)
      ensures ok == pendingRefillProof && (lostProof == (old(lostProof) || !ok))
      ensures Snapshot(if ok then tasks[t := Updated(max)] else tasks - {t}) == Step(old(Snapshot(tasks)), Record(t))
    {
      if !pendingRefillProof {
        lostProof := true;
        return false;
      }
      spendAuthorization, maxTotalUnits := refill.authorization.value.id, max;
      return true;
    }

    method ClearPending(max: int, t: TaskId, ghost tasks: map<TaskId, At>)
      requires t in tasks && tasks[t] == Updated(max)
      modifies this`pendingRefillKey, this`pendingRefill, this`pendingRefillMaxTotalUnits, this`pendingRefillProof,
               this`log, this`settledCap, this`refills
      ensures Snapshot(tasks - {t}) == Step(old(Snapshot(tasks)), Finish(t))
      ensures pendingRefill.None? && pendingRefillKey.None? && !pendingRefillProof && pendingRefillMaxTotalUnits.None?
    {
      pendingRefill, pendingRefillKey, pendingRefillProof, pendingRefillMaxTotalUnits := None, None, false, None;
      log, settledCap, refills := log + [Refilled(max)], max, refills + 1;
    }
  }
}
