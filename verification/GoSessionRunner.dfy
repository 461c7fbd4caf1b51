/** The Go session runner handling one balance event, with what the outside does in that time as input; the
    handling is a serialized run of the refill protocol. */
module GoSessionRunner {
  import opened Results
  import opened RefillProtocol
  import opened RefillProofs

  /** The callback fired, if any. */
  datatype Told = Nothing | Winddown(reason: string) | RefillRefused | RefillSucceeded

  datatype Reply = Answer | EmptyBody | NoAnswer

  /** What happens outside during one refill: whether the session can be started and the proof signed, what
      LOC commits and replies, and whether the broker credits the top-up and says so. */
  datatype Outside = Outside(starts: bool, signs: bool, locCommits: Option<Refill>, locReplies: Reply,
                             brokerCredits: bool, brokerAccepts: bool)

  const HANDLER: TaskId := 0

  /** A serialized run with the states it goes through. */
  datatype Trace = Trace(states: seq<State>, actions: seq<Action>)

  ghost predicate IsTrace(r: Trace) {
    && |r.states| == |r.actions| + 1
    && forall i {:trigger r.actions[i]} :: 0 <= i < |r.actions| ==>
         r.states[i + 1] == Step(r.states[i], r.actions[i]) && (r.actions[i].Start? ==> r.states[i].tasks == map[])
  }

  ghost function End(r: Trace): State
    requires r.states != []
  {
    r.states[|r.states| - 1]
  }

  ghost predicate Leads(s: State, r: Trace, t: State) {
    IsTrace(r) && r.states[0] == s && End(r) == t
  }

  /** The run with one more action. */
  ghost function Then(r: Trace, a: Action): (more: Trace)
    requires IsTrace(r) && !a.Start?
    ensures IsTrace(more) && more.states[0] == r.states[0] && End(more) == Step(End(r), a)
  {
    Trace(r.states + [Step(End(r), a)], r.actions + [a])
  }

  /** The two actions that bring an idle runner to `refill`. */
  ghost function Opening(s: State, asked: Body): (r: Trace)
    requires s.tasks == map[] && s.client.sdk.Go? && asked.maxTotalUnits > s.client.handleCap
    ensures Leads(s, r, s.(tasks := map[HANDLER := Approved(asked)]))
  {
    var start := Start(HANDLER, asked.observedUnits);
    var s1 := Step(s, start);
    assert s1 == s.(tasks := map[HANDLER := Consulting(s.client.handleCap)]);
    assert Step(s1, Approve(HANDLER, asked)) == s.(tasks := map[HANDLER := Approved(asked)]) by {
      assert s1.tasks[HANDLER := Approved(asked)] == map[HANDLER := Approved(asked)];
    }
    Then(Trace([s, s1], [start]), Approve(HANDLER, asked))
  }

  lemma {:induction false} TraceIsRun(r: Trace)
    requires IsTrace(r)
    ensures After(r.states[0], r.actions) == End(r) && Serialized(r.states[0], r.actions)
    decreases |r.actions|
  {
    if r.actions != [] {
      var n := |r.actions| - 1;
      var before := Trace(r.states[..n + 1], r.actions[..n]);
      assert forall i :: 0 <= i < n ==> before.actions[i] == r.actions[i];
      TraceIsRun(before);
      assert r.states[n + 1] == Step(r.states[n], r.actions[n]);
    }
  }

  lemma FailureStops(s: State, at: At)
    requires s.tasks == map[HANDLER := at] && MayFail(s.client.sdk, at)
    ensures Step(s, Action.Fail(HANDLER)) == s.(tasks := map[])
  {
    assert s.tasks - {HANDLER} == map[];
  }

  lemma AcceptanceMoves(s: State, refill: Refill, max: int)
    requires s.tasks == map[HANDLER := Posting(refill, max)] && refill.requestId in s.world.applied
    ensures Step(s, PostAccepted(HANDLER)) == s.(tasks := map[HANDLER := Accepted(refill, max)])
  {
    assert s.tasks[HANDLER := Accepted(refill, max)] == map[HANDLER := Accepted(refill, max)];
  }

  lemma FinishClears(s: State, cap: int)
    requires s.tasks == map[HANDLER := Updated(cap)]
    ensures Step(s, Finish(HANDLER)) == DoFinish(s, HANDLER, cap).(tasks := map[])
  {
    assert s.tasks - {HANDLER} == map[];
  }

  /** From `before` on, LOC was asked once with `asked` under `key`, first of all, if `asks`, and otherwise not. */
  ghost predicate AskedOnce(before: seq<Note>, after: seq<Note>, asks: bool, key: Key, asked: Body) {
    && |before| <= |after| && after[..|before|] == before
    && (asks ==> |before| < |after| && after[|before|] == Asked(key, asked))
    && forall i :: |before| <= i < |after| && after[i].Asked? ==> asks && i == |before|
  }

  /** The last refill finished was of a usable top-up, the authorization of which is `authorization`. */
  predicate EndsWithTopup(log: seq<Note>, authorization: nat) {
    && |log| >= 2 && log[|log| - 2].ToppedUp? && Usable(log[|log| - 2].refill)
    && log[|log| - 2].refill.authorization.value.id == authorization
  }

  class SessionRunner {
    const refillMode: string
    const hasApprover: bool
    var maxTotalUnits: int                // of the handle, as is spendAuthorization
    var spendAuthorization: nat
    var pendingKey: Option<Key>
    var pendingRefill: Option<Refill>
    var pendingMaxTotalUnits: int
    var world: World                      // LOC, the broker and the network
    ghost var capPending: bool            // whether pendingMaxTotalUnits means anything
    ghost var proofKept: bool
    ghost var log: seq<Note>
    ghost var settledCap: int
    ghost var refills: nat
    ghost const startCap: int
    ghost const startAuthorization: nat
    ghost var history: seq<Action>        // all that happened so far

    ghost function Snapshot(tasks: map<TaskId, At>): State
      reads this
    {
      State(Client(Go, maxTotalUnits, spendAuthorization, pendingKey, pendingRefill,
                   if capPending then Some(pendingMaxTotalUnits) else None, proofKept),
            world, tasks, log, settledCap, refills, false, false)
    }

    ghost predicate Idle()
      reads this
    {
      && (pendingRefill.Some? ==> capPending)
      && (!capPending ==> pendingMaxTotalUnits == 0)
      && maxTotalUnits == settledCap
    }

    ghost function Beginning(): State { Init(Go, startCap, startAuthorization) }

    /** Between two events: the object is where one serialized run of the protocol, from its construction on, is. */
    ghost predicate Valid()
      reads this
    {
      Idle() && Serialized(Beginning(), history) && After(Beginning(), history) == Snapshot(map[])
    }

    /** No party counts on more than the one before it, and with nothing pending all count on the same. */
    predicate CapsInLine()
      reads this
    {
      && maxTotalUnits <= world.brokerCap <= world.locCap
      && (pendingKey.None? ==> maxTotalUnits == world.brokerCap == world.locCap)
    }

    constructor (cap: int, authorization: nat, refillMode: string, hasApprover: bool)
      ensures Snapshot(map[]) == Init(Go, cap, authorization) && Valid() && CapsInLine() && history == []
      ensures this.refillMode == refillMode && this.hasApprover == hasApprover
    {
      this.refillMode := refillMode;
      this.hasApprover := hasApprover;
      maxTotalUnits, spendAuthorization := cap, authorization;
      pendingKey, pendingRefill, pendingMaxTotalUnits := None, None, 0;
      world := World(0, {}, {}, cap, map[], cap, {});
      capPending, proofKept, log, settledCap, refills := false, false, [], cap, 0;
      startCap, startAuthorization, history := cap, authorization, [];
    }

    /** The cap the application is asked to extend to, when a balance event gets that far. */
    predicate Asks(b: Balance) {
      b.status == "low" && !b.willRefuseNextRefill && refillMode != "bounded" && hasApprover
    }

    /** Nothing is pending and nothing outside goes wrong: LOC commits a usable answer of its own and replies
        with it, and the broker credits the top-up and accepts it. */
    predicate Smooth(asked: Body, outside: Outside)
      reads this
    {
      && pendingKey.None? && pendingRefill.None? && world.nextKey !in world.revisions
      && outside.starts && outside.signs && outside.locReplies.Answer? && outside.brokerCredits && outside.brokerAccepts
      && outside.locCommits.Some?
      && var r := outside.locCommits.value;
         && Usable(r) && r.authorization.value.cap == asked.maxTotalUnits && r.requestId !in world.applied
         && forall k :: k in world.revisions ==> world.revisions[k].answer.requestId != r.requestId
    }

    /** The key that a request to LOC carries: the pending one, or the next of the supply. */
    function KeyToUse(): Key
      reads this
    {
      if pendingKey.Some? then pendingKey.value else world.nextKey
    }

    /** One balance event. `approval` is what the application answers if asked. */
    method OnBalance(b: Balance, approval: Option<int>, outside: Outside)
      returns (told: Told, ghost actions: seq<Action>)
      requires Valid()
      modifies this
      ensures Valid() && CapsInLine() && history == old(history) + actions
      ensures Serialized(old(Snapshot(map[])), actions) && Snapshot(map[]) == After(old(Snapshot(map[])), actions)
      ensures !Asks(b) || approval.None? || approval.value <= old(maxTotalUnits) ==> actions == []
      ensures told.Nothing? <==>
              b.status !in {"ok", "low", "exhausted"} || (b.status != "low" && !b.willRefuseNextRefill)
      ensures b.willRefuseNextRefill && b.status in {"ok", "low", "exhausted"} ==>
              told == Winddown("broker_will_refuse_next_refill")
      ensures b.status == "low" && !b.willRefuseNextRefill && refillMode == "bounded" ==>
              told == Winddown("bounded_runway_exhausting")
      ensures b.status == "low" && !b.willRefuseNextRefill && refillMode != "bounded" && !hasApprover ==>
              told == Winddown("wholesale_cap_extension_required")
      ensures Asks(b) && approval.None? ==> told == Winddown("wholesale_cap_extension_declined")
      ensures Asks(b) && approval.Some? ==> told in {RefillRefused, RefillSucceeded}
      ensures var asks := Asks(b) && approval.Some? && approval.value > old(maxTotalUnits) && outside.starts &&
                          old(pendingRefill.None?);
              var asked := Body(b.claimedUnits, if approval.Some? then approval.value else 0);
              && AskedOnce(old(log), log, asks, old(KeyToUse()), asked)
              && world.revisionRequests ==
                 old(world.revisionRequests) + if asks then {(old(KeyToUse()), asked)} else {}
      ensures told.RefillSucceeded? ==> EndsWithTopup(log, spendAuthorization)
      ensures !told.RefillSucceeded? ==> spendAuthorization == old(spendAuthorization)
      ensures Asks(b) && approval.Some? && approval.value <= old(maxTotalUnits) ==> told == RefillRefused
      ensures told.RefillSucceeded? <==> refills == old(refills) + 1
      ensures told.RefillSucceeded? ==> approval.Some? && maxTotalUnits > old(maxTotalUnits)
      ensures told.RefillSucceeded? ==>
              maxTotalUnits == if old(pendingRefill.Some?) then old(pendingMaxTotalUnits) else approval.value
      ensures !told.RefillSucceeded? ==> maxTotalUnits == old(maxTotalUnits) && refills == old(refills)
      ensures told.RefillSucceeded? ==>
              pendingKey.None? && pendingRefill.None? && log != [] && log[|log| - 1] == Refilled(maxTotalUnits)
      ensures !told.RefillSucceeded? && old(pendingKey.Some?) ==> pendingKey == old(pendingKey)
      ensures !told.RefillSucceeded? && old(pendingRefill.Some?) ==> pendingRefill == old(pendingRefill)
      ensures Asks(b) && approval.Some? && approval.value > old(maxTotalUnits) &&
              old(Smooth(Body(b.claimedUnits, approval.value), outside)) ==>
              told.RefillSucceeded? && maxTotalUnits == world.brokerCap == world.locCap == approval.value
    {
      actions := [];
      EventEnds(history, actions);
      if b.status !in {"ok", "low", "exhausted"} {
        return Nothing, actions;
      }
      if b.willRefuseNextRefill {
        return Winddown("broker_will_refuse_next_refill"), actions;
      }
      if b.status != "low" {
        return Nothing, actions;
      }
      if refillMode == "bounded" {
        return Winddown("bounded_runway_exhausting"), actions;
      }
      if !hasApprover {
        return Winddown("wholesale_cap_extension_required"), actions;
      }
      if approval.None? {
        return Winddown("wholesale_cap_extension_declined"), actions;
      }
      if approval.value <= maxTotalUnits {
        return RefillRefused, actions;
      }
      var ok;
      ok, actions := RaiseCap(Body(b.claimedUnits, approval.value), outside);
      told := if ok then RefillSucceeded else RefillRefused;
    }

    /** The refill, and what it adds to the run so far. */
    method RaiseCap(asked: Body, outside: Outside) returns (ok: bool, ghost actions: seq<Action>)
      requires Valid() && asked.maxTotalUnits > maxTotalUnits
      modifies this
      ensures Valid() && CapsInLine() && history == old(history) + actions
      ensures Serialized(old(Snapshot(map[])), actions) && Snapshot(map[]) == After(old(Snapshot(map[])), actions)
      ensures refills == if ok then old(refills) + 1 else old(refills)
      ensures AskedOnce(old(log), log, outside.starts && old(pendingRefill.None?), old(KeyToUse()), asked)
      ensures world.revisionRequests == old(world.revisionRequests) +
                if outside.starts && old(pendingRefill.None?) then {(old(KeyToUse()), asked)} else {}
      ensures ok ==> EndsWithTopup(log, spendAuthorization)
      ensures !ok ==> spendAuthorization == old(spendAuthorization)
      ensures ok ==> maxTotalUnits > old(maxTotalUnits)
      ensures ok ==>
              maxTotalUnits == if old(pendingRefill.Some?) then old(pendingMaxTotalUnits) else asked.maxTotalUnits
      ensures ok ==> pendingKey.None? && pendingRefill.None? && log != [] && log[|log| - 1] == Refilled(maxTotalUnits)
      ensures !ok ==> maxTotalUnits == old(maxTotalUnits)
      ensures !ok && old(pendingKey.Some?) ==> pendingKey == old(pendingKey)
      ensures !ok && old(pendingRefill.Some?) ==> pendingRefill == old(pendingRefill)
      ensures old(Smooth(asked, outside)) ==>
              ok && maxTotalUnits == world.brokerCap == world.locCap == asked.maxTotalUnits
    {
      ghost var run;
      ok, run := Refill(asked, outside);
      TraceIsRun(run);
      actions := run.actions;
      EventEnds(history, actions);
      history := history + actions;
    }

    /** What arrives late: between two events LOC or the broker commits a request that was sent before. */
    method Meanwhile(a: Action)
      requires Valid() && (a.LocCommits? || a.BrokerCommits?)
      modifies this`world, this`history
      ensures Valid() && CapsInLine() && history == old(history) + [a]
      ensures Snapshot(map[]) == Step(old(Snapshot(map[])), a)
    {
      ghost var s := Snapshot(map[]);
      if a.LocCommits? {
        LocTurn(a.key, a.body, a.answer);
      } else {
        BrokerTurn(a.refill);
      }
      assert After(s, [a][..0]) == s && [a][..0] == [];
      EventEnds(history, [a]);
      history := history + [a];
    }

    /** What the run so far and one more event come to. */
    lemma EventEnds(before: seq<Action>, actions: seq<Action>)
      requires Serialized(Beginning(), before) && Serialized(After(Beginning(), before), actions)
      requires Idle() && After(After(Beginning(), before), actions) == Snapshot(map[])
      ensures Serialized(Beginning(), before + actions) && After(Beginning(), before + actions) == Snapshot(map[])
      ensures CapsInLine()
      ensures var s := After(Beginning(), before); settledCap > s.settledCap <==> refills > s.refills
    {
      SerializedAppend(Beginning(), before, actions);
      CapsInOrder(Go, startCap, startAuthorization, before + actions);
      SerializedKeepsInv(Go, startCap, startAuthorization, before);
      RefillsRaiseCap(After(Beginning(), before), actions, startCap);
    }

    method Refill(asked: Body, outside: Outside) returns (ok: bool, ghost run: Trace)
      requires Idle() && asked.maxTotalUnits > maxTotalUnits
      modifies this
      ensures Idle() && Leads(old(Snapshot(map[])), run, Snapshot(map[])) && history == old(history)
      ensures refills == if ok then old(refills) + 1 else old(refills)
      ensures AskedOnce(old(log), log, outside.starts && old(pendingRefill.None?), old(KeyToUse()), asked)
      ensures world.revisionRequests == old(world.revisionRequests) +
                if outside.starts && old(pendingRefill.None?) then {(old(KeyToUse()), asked)} else {}
      ensures ok ==> EndsWithTopup(log, spendAuthorization)
      ensures !ok ==> spendAuthorization == old(spendAuthorization)
      ensures ok ==> pendingKey.None? && pendingRefill.None? && log != [] && log[|log| - 1] == Refilled(maxTotalUnits)
      ensures !ok ==> maxTotalUnits == old(maxTotalUnits)
      ensures ok ==> maxTotalUnits == if old(pendingRefill.Some?) then old(pendingMaxTotalUnits)
              else asked.maxTotalUnits
      ensures !ok && old(pendingKey.Some?) ==> pendingKey == old(pendingKey)
      ensures !ok && old(pendingRefill.Some?) ==> pendingRefill == old(pendingRefill)
      ensures old(Smooth(asked, outside)) ==>
              ok && maxTotalUnits == world.brokerCap == world.locCap == asked.maxTotalUnits
    {
      ghost var s0 := Snapshot(map[]);
      run := Opening(s0, asked);
      if !outside.starts {
        return false, Then(run, Action.Fail(HANDLER));
      }
      var stored, max;
      stored, max, run := ObtainRefill(asked, outside, run);
      if stored.None? {
        return false, run;
      }
      ok, run := DeliverRefill(stored.value, max, outside, run);
    }

    /** The stored refill with its cap, or a new one from LOC. Without a usable reply the key stays pending. */
    method ObtainRefill(asked: Body, outside: Outside, ghost before: Trace)
      returns (refill: Option<Refill>, max: int, ghost run: Trace)
      requires Idle() && IsTrace(before) && End(before) == Snapshot(map[HANDLER := Approved(asked)])
      modifies this`pendingKey, this`pendingRefill, this`pendingMaxTotalUnits, this`capPending, this`world, this`log
      ensures Idle() && Leads(before.states[0], run,
              Snapshot(if refill.Some? then map[HANDLER := Holding(refill.value, max)] else map[]))
      ensures pendingKey.Some? && (old(pendingKey.Some?) ==> pendingKey == old(pendingKey))
      ensures old(pendingRefill.Some?) ==> pendingRefill == old(pendingRefill)
      ensures log == old(log) + if old(pendingRefill.None?) then [Asked(old(KeyToUse()), asked)] else []
      ensures world.revisionRequests ==
              old(world.revisionRequests) + if old(pendingRefill.None?) then {(old(KeyToUse()), asked)} else {}
      ensures refill.Some? ==> max == if old(pendingRefill.Some?) then old(pendingMaxTotalUnits)
              else asked.maxTotalUnits
      ensures old(Smooth(asked, outside)) ==>
              refill == outside.locCommits && max == asked.maxTotalUnits == world.locCap &&
                                              world.applied == old(world.applied)
    {
      if pendingRefill.Some? {
        refill, max := pendingRefill, pendingMaxTotalUnits;
        ResumeRefill(asked);
        run := Then(before, Enter(HANDLER));
        return;
      }
      max := asked.maxTotalUnits;
      refill, run := ReviseAuthorization(asked, outside, before);
    }

    method ReviseAuthorization(asked: Body, outside: Outside, ghost before: Trace)
      returns (refill: Option<Refill>, ghost run: Trace)
      requires Idle() && IsTrace(before) && End(before) == Snapshot(map[HANDLER := Approved(asked)]) &&
               pendingRefill.None?
      modifies this`pendingKey, this`pendingRefill, this`pendingMaxTotalUnits, this`capPending, this`world, this`log
      ensures Idle() && Leads(before.states[0], run,
                Snapshot(if refill.Some? then map[HANDLER := Holding(refill.value, asked.maxTotalUnits)] else map[]))
      ensures pendingKey.Some? && (old(pendingKey.Some?) ==> pendingKey == old(pendingKey))
      ensures log == old(log) + [Asked(old(KeyToUse()), asked)]
      ensures world.revisionRequests == old(world.revisionRequests) + {(old(KeyToUse()), asked)}
      ensures old(Smooth(asked, outside)) ==> refill == outside.locCommits && world.locCap == asked.maxTotalUnits &&
                                              world.applied == old(world.applied)
    {
      var key := SendRevision(asked);
      run := Then(before, Enter(HANDLER));
      if outside.locCommits.Some? {
        LocTurn(key, asked, outside.locCommits.value);
        run := Then(run, LocCommits(key, asked, outside.locCommits.value));
      }
      refill, run := ReadReply(key, asked, outside, run);
    }

    method ReadReply(key: Key, asked: Body, outside: Outside, ghost before: Trace)
      returns (refill: Option<Refill>, ghost run: Trace)
      requires Idle() && IsTrace(before) && End(before) == Snapshot(map[HANDLER := Asking(key, asked)])
      modifies this`pendingRefill, this`pendingMaxTotalUnits, this`capPending
      ensures Idle() && Leads(before.states[0], run,
                Snapshot(if refill.Some? then map[HANDLER := Holding(refill.value, asked.maxTotalUnits)] else map[]))
      ensures refill == if outside.locReplies.Answer? && key in world.revisions && world.revisions[key].body == asked
                        then Some(world.revisions[key].answer) else None
      ensures if outside.locReplies.EmptyBody? then pendingRefill == None && pendingMaxTotalUnits == asked.maxTotalUnits
              else if refill.Some? then pendingRefill == refill && pendingMaxTotalUnits == asked.maxTotalUnits
              else pendingRefill == old(pendingRefill) && pendingMaxTotalUnits == old(pendingMaxTotalUnits)
    {
      if outside.locReplies.EmptyBody? {
        ReceiveNothing(key, asked);
        return None, Then(before, AskEmpty(HANDLER));
      }
      if outside.locReplies.NoAnswer? || key !in world.revisions || world.revisions[key].body != asked {
        return None, Then(before, Action.Fail(HANDLER));
      }
      refill := Some(world.revisions[key].answer);
      ReceiveRevision(key, asked);
      run := Then(before, AskAnswered(HANDLER));
    }

    /** The first section under the lock: a new key only when none is pending. */
    method TakeKey() returns (key: Key)
      modifies this`pendingKey, this`world
      ensures pendingKey == Some(key)
      ensures old(pendingKey.Some?) ==> pendingKey == old(pendingKey) && world == old(world)
      ensures old(pendingKey.None?) ==> key == old(world.nextKey) && world == old(world).(nextKey := key + 1)
    {
      if pendingKey.None? {
        pendingKey := Some(world.nextKey);
        world := world.(nextKey := world.nextKey + 1);
      }
      key := pendingKey.value;
    }

    /** That section, and the request to LOC, when no refill is stored. */
    method SendRevision(asked: Body) returns (key: Key)
      requires pendingRefill.None?
      modifies this`pendingKey, this`world, this`log
      ensures Snapshot(map[HANDLER := Asking(key, asked)]) ==
              Step(old(Snapshot(map[HANDLER := Approved(asked)])), Enter(HANDLER))
      ensures pendingKey == Some(key) && key == if old(pendingKey.Some?) then old(pendingKey.value)
              else old(world.nextKey)
      ensures log == old(log) + [Asked(key, asked)]
      ensures world.revisionRequests == old(world.revisionRequests) + {(key, asked)}
      ensures (key, asked) in world.revisionRequests && world.revisions == old(world.revisions) &&
              world.applied == old(world.applied)
    {
      key := TakeKey();
      world := world.(revisionRequests := world.revisionRequests + {(key, asked)});
      log := log + [Asked(key, asked)];
    }

    /** The same section when one is. */
    method ResumeRefill(asked: Body)
      requires pendingRefill.Some? && capPending
      modifies this`pendingKey, this`world
      ensures Snapshot(map[HANDLER := Holding(pendingRefill.value, pendingMaxTotalUnits)]) ==
              Step(old(Snapshot(map[HANDLER := Approved(asked)])), Enter(HANDLER))
      ensures pendingKey.Some? && (old(pendingKey.Some?) ==> pendingKey == old(pendingKey))
      ensures world == old(world).(nextKey := world.nextKey)
    {
      var _ := TakeKey();
    }

    /** LOC's side of the request. */
    method LocTurn(key: Key, asked: Body, answer: Refill)
      modifies this`world
      ensures forall tasks :: Snapshot(tasks) == Step(old(Snapshot(tasks)), LocCommits(key, asked, answer))
      ensures world == if MayCommit(old(world), key, asked, answer) then DoLocCommits(old(world), key, asked, answer)
              else old(world)
    {
      if MayCommit(world, key, asked, answer) {
        world := DoLocCommits(world, key, asked, answer);
      }
    }

    /** The second section under the lock, after an answer and after an empty one. */
    method ReceiveRevision(key: Key, asked: Body)
      requires key in world.revisions && world.revisions[key].body == asked
      modifies this`pendingRefill, this`pendingMaxTotalUnits, this`capPending
      ensures Snapshot(map[HANDLER := Holding(world.revisions[key].answer, asked.maxTotalUnits)]) ==
              Step(old(Snapshot(map[HANDLER := Asking(key, asked)])), AskAnswered(HANDLER))
      ensures capPending
    {
      pendingRefill, pendingMaxTotalUnits, capPending := Some(world.revisions[key].answer), asked.maxTotalUnits, true;
    }

    method ReceiveNothing(key: Key, asked: Body)
      modifies this`pendingRefill, this`pendingMaxTotalUnits, this`capPending
      ensures Snapshot(map[]) == Step(old(Snapshot(map[HANDLER := Asking(key, asked)])), AskEmpty(HANDLER))
      ensures capPending
    {
      pendingRefill, pendingMaxTotalUnits, capPending := None, asked.maxTotalUnits, true;
      assert map[HANDLER := Asking(key, asked)] - {HANDLER} == map[];
    }

    /** The top-up, and all that follows when the broker accepts it. */
    method DeliverRefill(refill: Refill, max: int, outside: Outside, ghost before: Trace)
      returns (ok: bool, ghost run: Trace)
      requires Idle() && IsTrace(before) && End(before) == Snapshot(map[HANDLER := Holding(refill, max)])
      modifies this
      ensures Idle() && Leads(before.states[0], run, Snapshot(map[])) && history == old(history)
      ensures refills == if ok then old(refills) + 1 else old(refills)
      ensures ok ==> pendingKey.None? && pendingRefill.None? && log != [] && log[|log| - 1] == Refilled(maxTotalUnits)
      ensures !ok ==>
              maxTotalUnits == old(maxTotalUnits) && pendingKey == old(pendingKey) &&
              pendingRefill == old(pendingRefill)
      ensures Usable(refill) && outside.signs && outside.brokerCredits && outside.brokerAccepts &&
              refill.requestId !in old(world.applied) ==>
              ok && world.brokerCap == refill.authorization.value.cap && world.locCap == old(world.locCap)
      ensures ok ==> maxTotalUnits == max
      ensures world.revisionRequests == old(world.revisionRequests)
      ensures |log| >= |old(log)| && log[..|old(log)|] == old(log)
      ensures forall i :: |old(log)| <= i < |log| ==> !log[i].Asked?
      ensures ok ==> EndsWithTopup(log, spendAuthorization) && log[|log| - 2] == ToppedUp(refill)
      ensures !ok ==> spendAuthorization == old(spendAuthorization)
    {
      var accepted;
      accepted, run := Topup(refill, max, outside, before);
      if !accepted {
        return false, run;
      }
      UpdateHandle(refill, max);
      run := Then(run, Record(HANDLER));
      ClearPending();
      return true, Then(run, Finish(HANDLER));
    }

    /** The request to the broker and its status. */
    method Topup(refill: Refill, max: int, outside: Outside, ghost before: Trace)
      returns (accepted: bool, ghost run: Trace)
      requires IsTrace(before) && End(before) == Snapshot(map[HANDLER := Holding(refill, max)])
      modifies this`world, this`log, this`proofKept
      ensures Leads(before.states[0], run, Snapshot(if accepted then map[HANDLER := Accepted(refill, max)] else map[]))
      ensures accepted ==> Usable(refill)
      ensures Usable(refill) && outside.signs && outside.brokerCredits && outside.brokerAccepts &&
              refill.requestId !in old(world.applied) ==>
              accepted && world.brokerCap == refill.authorization.value.cap
      ensures world.locCap == old(world.locCap) && world.revisionRequests == old(world.revisionRequests)
      ensures log == old(log) + if Usable(refill) && outside.signs then [ToppedUp(refill)] else []
      ensures accepted ==> outside.signs
    {
      if !Usable(refill) || !outside.signs {
        FailureStops(End(before), Holding(refill, max));
        return false, Then(before, Action.Fail(HANDLER));
      }
      PostTopup(refill, max);
      run := Then(before, Post(HANDLER));
      if outside.brokerCredits {
        BrokerTurn(refill);
        run := Then(run, BrokerCommits(refill));
      }
      accepted := outside.brokerAccepts && refill.requestId in world.applied;
      if accepted {
        AcceptanceMoves(End(run), refill, max);
        return true, Then(run, PostAccepted(HANDLER));
      }
      FailureStops(End(run), Posting(refill, max));
      run := Then(run, Action.Fail(HANDLER));
    }

    method PostTopup(refill: Refill, max: int)
      requires Usable(refill)
      modifies this`world, this`log, this`proofKept
      ensures Snapshot(map[HANDLER := Posting(refill, max)]) ==
              Step(old(Snapshot(map[HANDLER := Holding(refill, max)])), Post(HANDLER))
      ensures world == old(world).(topupRequests := old(world.topupRequests) + {refill})
      ensures log == old(log) + [ToppedUp(refill)]
    {
      world := world.(topupRequests := world.topupRequests + {refill});
      log, proofKept := log + [ToppedUp(refill)], true;
    }

    /** The broker's side of the top-up. */
    method BrokerTurn(refill: Refill)
      modifies this`world
      ensures forall tasks :: Snapshot(tasks) == Step(old(Snapshot(tasks)), BrokerCommits(refill))
      ensures world == if MayCredit(old(world), refill) then DoBrokerCommits(old(world), refill) else old(world)
    {
      if MayCredit(world, refill) {
        world := DoBrokerCommits(world, refill);
      }
    }

    /** The handle takes the new authorization and cap. */
    method UpdateHandle(refill: Refill, max: int)
      requires refill.authorization.Some?
      modifies this`spendAuthorization, this`maxTotalUnits
      ensures Snapshot(map[HANDLER := Updated(max)]) ==
              Step(old(Snapshot(map[HANDLER := Accepted(refill, max)])), Record(HANDLER))
      ensures maxTotalUnits == max && spendAuthorization == refill.authorization.value.id
    {
      spendAuthorization := refill.authorization.value.id;
      maxTotalUnits := max;
    }

    /** The callback has fired; the last section under the lock clears what was pending. */
    method ClearPending()
      modifies this`pendingKey, this`pendingRefill, this`pendingMaxTotalUnits, this`capPending, this`proofKept,
               this`log, this`settledCap, this`refills
      ensures Snapshot(map[]) == Step(old(Snapshot(map[HANDLER := Updated(maxTotalUnits)])), Finish(HANDLER))
      ensures pendingKey.None? && pendingRefill.None? && pendingMaxTotalUnits == 0 && !capPending
      ensures refills == old(refills) + 1 && log == old(log) + [Refilled(maxTotalUnits)] && settledCap == maxTotalUnits
    {
      FinishClears(Snapshot(map[HANDLER := Updated(maxTotalUnits)]), maxTotalUnits);
      pendingKey, pendingRefill, pendingMaxTotalUnits := None, None, 0;
      capPending, proofKept, log, settledCap, refills :=
        false, false, log + [Refilled(maxTotalUnits)], maxTotalUnits, refills + 1;
    }
  }
}
