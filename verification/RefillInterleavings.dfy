/** What handlers that overlap can do, with parties in order and without. TypeScript starts a handler for every message
    without waiting for the one before; Go and Rust take messages in turn, but let the application call the handler
    itself. */
module RefillInterleavings {
  import opened Results
  import opened RefillProtocol
  import opened RefillProofs
  import opened RefillOrder

  /** A handler starts only while fewer than `k` are at work. */
  predicate AtMost(s: State, actions: seq<Action>, k: nat) {
    actions == [] ||
    var last := |actions| - 1;
    AtMost(s, actions[..last], k) && (actions[last].Start? ==> |After(s, actions[..last]).tasks| < k)
  }

  lemma {:induction false} AtMostMore(s: State, actions: seq<Action>, j: nat, k: nat)
    requires AtMost(s, actions, j) && j <= k
    ensures AtMost(s, actions, k)
  {
    if actions != [] { AtMostMore(s, actions[..|actions| - 1], j, k); }
  }

  /** One at a time is what serialized means. */
  lemma {:induction false} AtMostOneIsSerialized(s: State, actions: seq<Action>)
    ensures AtMost(s, actions, 1) <==> Serialized(s, actions)
  {
    if actions != [] {
      var before := actions[..|actions| - 1];
      AtMostOneIsSerialized(s, before);
      assert |After(s, before).tasks| < 1 <==> After(s, before).tasks == map[];
    }
  }

  // ---- Taking one step after another, with two handlers at most ----

  const FIRST: TaskId := 1
  const SECOND: TaskId := 2

  /** A run that respects the parties, with two handlers at work at most. */
  predicate Run(p: Parties, start: State, actions: seq<Action>, s: State) {
    s == After(start, actions) && AtMost(start, actions, 2) && AllRespect(p, start, actions)
  }

  lemma Take(p: Parties, start: State, actions: seq<Action>, s: State, a: Action)
    returns (more: seq<Action>, t: State)
    requires Run(p, start, actions, s) && (a.Start? ==> |s.tasks| < 2) && Respects(p, s, a)
    ensures t == Step(s, a) && Run(p, start, more, t)
  {
    AfterOneMore(start, actions, a);
    more, t := actions + [a], Step(s, a);
    assert more[..|more| - 1] == actions;
  }

  /** LOC's answer number `n`, for a cap. */
  function Answer(n: nat, cap: int): Refill { Refill(n, true, Some(Authorization(n, cap))) }

  predicate NothingPending(c: Client) { c.pendingKey.None? && c.pendingRefill.None? }

  /** LOC can still answer with number `n`, and the broker has credited none such. */
  predicate Unused(w: World, n: nat) {
    && w.nextKey !in w.revisions && n !in w.applied
    && forall k :: k in w.revisions ==> w.revisions[k].answer.requestId != n
  }

  predicate AllAdmitted(w: World) { forall k :: k in w.revisions ==> w.revisions[k].answer.requestId in w.applied }

  /** A handler starts and is told a higher cap. */
  lemma Told(p: Parties, start: State, actions: seq<Action>, s: State, t: TaskId, cap: int)
    returns (more: seq<Action>, u: State)
    requires Run(p, start, actions, s)
    requires t !in s.tasks && |s.tasks| < 2 && s.client.pendingRefill.None? && cap > s.client.handleCap
    ensures Run(p, start, more, u)
    ensures u == s.(tasks := s.tasks[t := Approved(Body(0, cap))])
  {
    more, u := Take(p, start, actions, s, Start(t, 0));
    assert u.tasks[t] == Consulting(s.client.handleCap);
    more, u := Take(p, start, more, u, Approve(t, Body(0, cap)));
    assert u.tasks == s.tasks[t := Approved(Body(0, cap))];
  }

  /** A handler enters `refill` while one is stored. */
  lemma Resumes(p: Parties, start: State, actions: seq<Action>, s: State, t: TaskId, approved: int)
    returns (more: seq<Action>, u: State)
    requires Run(p, start, actions, s)
    requires t in s.tasks && s.tasks[t] == Approved(Body(0, approved))
    requires s.client.pendingKey.Some? && s.client.pendingRefill.Some? && s.client.pendingCap.Some?
    ensures Run(p, start, more, u)
    ensures var held := CapHeld(s.client.sdk, s.client.pendingCap.value, approved);
            u == s.(tasks := s.tasks[t := Holding(s.client.pendingRefill.value, held)])
  {
    more, u := Take(p, start, actions, s, Enter(t));
  }

  /** A handler asks LOC for `cap`. */
  lemma Asks(p: Parties, start: State, actions: seq<Action>, s: State, t: TaskId, cap: int)
    returns (more: seq<Action>, u: State)
    requires Run(p, start, actions, s)
    requires t !in s.tasks && |s.tasks| < 2 && NothingPending(s.client) && cap > s.client.handleCap
    ensures Run(p, start, more, u)
    ensures u.client == s.client.(pendingKey := Some(s.world.nextKey))
    ensures u.world == s.world.(nextKey := s.world.nextKey + 1,
                                revisionRequests := s.world.revisionRequests + {(s.world.nextKey, Body(0, cap))})
    ensures u.tasks == s.tasks[t := Asking(s.world.nextKey, Body(0, cap))] && u.lostProof == s.lostProof
  {
    more, u := Told(p, start, actions, s, t, cap);
    more, u := Take(p, start, more, u, Enter(t));
  }

  /** LOC answers the handler that asked. */
  lemma Answered(p: Parties, start: State, actions: seq<Action>, s: State, t: TaskId, key: Key, n: nat, cap: int)
    returns (more: seq<Action>, u: State)
    requires Run(p, start, actions, s)
    requires t in s.tasks && s.tasks[t] == Asking(key, Body(0, cap)) && (key, Body(0, cap)) in s.world.revisionRequests
    requires Unused(s.world.(nextKey := key), n)
    requires p.AnyOrder? || (cap > s.world.locCap && AllAdmitted(s.world))
    ensures Run(p, start, more, u)
    ensures u.client == s.client.(pendingRefill := Some(Answer(n, cap)), pendingCap := Some(cap))
    ensures u.world == s.world.(locCap := cap,
                                revisions := s.world.revisions[key := Entry(Body(0, cap), Answer(n, cap))])
    ensures u.tasks == s.tasks[t := Holding(Answer(n, cap), cap)] && u.lostProof == s.lostProof
  {
    more, u := Take(p, start, actions, s, LocCommits(key, Body(0, cap), Answer(n, cap)));
    more, u := Take(p, start, more, u, AskAnswered(t));
  }

  /** A handler posts the refill it holds. */
  lemma Posts(p: Parties, start: State, actions: seq<Action>, s: State, t: TaskId, n: nat, cap: int, held: int)
    returns (more: seq<Action>, u: State)
    requires Run(p, start, actions, s)
    requires t in s.tasks && s.tasks[t] == Holding(Answer(n, cap), held)
    ensures Run(p, start, more, u)
    ensures u.client == s.client.(pendingProof := true)
    ensures u.world == s.world.(topupRequests := s.world.topupRequests + {Answer(n, cap)})
    ensures u.tasks == s.tasks[t := Posting(Answer(n, cap), held)] && u.lostProof == s.lostProof
  {
    more, u := Take(p, start, actions, s, Post(t));
  }

  /** The broker credits a top-up. */
  lemma Credited(p: Parties, start: State, actions: seq<Action>, s: State, n: nat, cap: int)
    returns (more: seq<Action>, u: State)
    requires Run(p, start, actions, s)
    requires Answer(n, cap) in s.world.topupRequests && n !in s.world.applied
    requires p.Rising? ==> cap > s.world.brokerCap
    ensures Run(p, start, more, u)
    ensures u.client == s.client && u.tasks == s.tasks && u.lostProof == s.lostProof
    ensures u.world == s.world.(brokerCap := cap, applied := s.world.applied + {n})
  {
    more, u := Take(p, start, actions, s, BrokerCommits(Answer(n, cap)));
  }

  /** A handler learns that its top-up was accepted and updates the handle. */
  lemma Records(p: Parties, start: State, actions: seq<Action>, s: State, t: TaskId, n: nat, cap: int, held: int)
    returns (more: seq<Action>, u: State)
    requires Run(p, start, actions, s)
    requires t in s.tasks && s.tasks[t] == Posting(Answer(n, cap), held) && n in s.world.applied &&
             s.client.pendingProof
    ensures Run(p, start, more, u)
    ensures u.client == s.client.(handleCap := held, handleAuthorization := n) && u.world == s.world
    ensures u.tasks == s.tasks[t := Updated(held)] && u.lostProof == s.lostProof
  {
    more, u := Take(p, start, actions, s, PostAccepted(t));
    more, u := Take(p, start, more, u, Record(t));
  }

  /** A handler clears what is pending, whosever it is. */
  lemma Finishes(p: Parties, start: State, actions: seq<Action>, s: State, t: TaskId, held: int)
    returns (more: seq<Action>, u: State)
    requires Run(p, start, actions, s)
    requires t in s.tasks && s.tasks[t] == Updated(held)
    ensures Run(p, start, more, u) && u.world == s.world
    ensures u.client == s.client.(pendingKey := None, pendingRefill := None, pendingCap := None, pendingProof := false)
    ensures u.tasks == s.tasks - {t} && u.lostProof == s.lostProof
  {
    more, u := Take(p, start, actions, s, Finish(t));
  }

  // ---- Two handlers with one refill ----

  /** The cap that the second handler goes on with: TypeScript keeps the one it was given, the others take the
      one stored with the refill. */
  function CapHeld(sdk: Sdk, stored: int, approved: int): int {
    if sdk.TypeScript? then approved else stored
  }

  /** LOC has committed the one revision, to `cap + 10`. */
  function OneRevision(cap: int, sent: set<Refill>, brokerCap: int, applied: set<nat>): World {
    World(1, {(0, Body(0, cap + 10))}, sent, cap + 10,
          map[0 := Entry(Body(0, cap + 10), Answer(0, cap + 10))], brokerCap, applied)
  }

  /** Two handlers hold the one refill of `cap + 10` units. */
  predicate TwoHold(s: State, sdk: Sdk, cap: int, approved: int) {
    && s.client == Client(sdk, cap, s.client.handleAuthorization, Some(0), Some(Answer(0, cap + 10)),
                          Some(cap + 10), false)
    && s.world == OneRevision(cap, {}, cap, {})
    && s.tasks == map[FIRST := Holding(Answer(0, cap + 10), cap + 10),
                      SECOND := Holding(Answer(0, cap + 10), CapHeld(sdk, cap + 10, approved))]
    && !s.lostProof
  }

  /** The second is told a cap before the first has its answer, and enters after. In TypeScript it goes on with the
      cap it was told, which may be another one. */
  lemma TwoCanHold(p: Parties, sdk: Sdk, cap: int, approved: int) returns (actions: seq<Action>, s: State)
    requires approved > cap
    ensures Run(p, Init(sdk, cap, 0), actions, s)
    ensures TwoHold(s, sdk, cap, approved)
  {
    var start := Init(sdk, cap, 0);
    actions, s := Asks(p, start, [], start, FIRST, cap + 10);
    actions, s := Told(p, start, actions, s, SECOND, approved);
    actions, s := Answered(p, start, actions, s, FIRST, 0, 0, cap + 10);
    actions, s := Resumes(p, start, actions, s, SECOND, approved);
  }

  /** One posts it. */
  lemma OneSends(p: Parties, sdk: Sdk, cap: int, approved: int) returns (actions: seq<Action>, s: State)
    requires approved > cap
    ensures Run(p, Init(sdk, cap, 0), actions, s)
    ensures s.client == Client(sdk, cap, s.client.handleAuthorization, Some(0), Some(Answer(0, cap + 10)),
                               Some(cap + 10), true)
    ensures s.world == OneRevision(cap, {Answer(0, cap + 10)}, cap, {})
    ensures s.tasks == map[FIRST := Posting(Answer(0, cap + 10), cap + 10),
                           SECOND := Holding(Answer(0, cap + 10), CapHeld(sdk, cap + 10, approved))]
    ensures !s.lostProof
  {
    actions, s := TwoCanHold(p, sdk, cap, approved);
    actions, s := Posts(p, Init(sdk, cap, 0), actions, s, FIRST, 0, cap + 10, cap + 10);
  }

  /** Both post it. */
  lemma TwoSend(p: Parties, sdk: Sdk, cap: int, approved: int) returns (actions: seq<Action>, s: State)
    requires approved > cap
    ensures Run(p, Init(sdk, cap, 0), actions, s)
    ensures s.client == Client(sdk, cap, s.client.handleAuthorization, Some(0), Some(Answer(0, cap + 10)),
                               Some(cap + 10), true)
    ensures s.world == OneRevision(cap, {Answer(0, cap + 10)}, cap, {})
    ensures s.tasks == map[FIRST := Posting(Answer(0, cap + 10), cap + 10),
                           SECOND := Posting(Answer(0, cap + 10), CapHeld(sdk, cap + 10, approved))]
    ensures !s.lostProof
  {
    actions, s := OneSends(p, sdk, cap, approved);
    actions, s := Posts(p, Init(sdk, cap, 0), actions, s, SECOND, 0, cap + 10, CapHeld(sdk, cap + 10, approved));
  }

  /** It is credited, and both are about to learn so. */
  lemma TwoPost(p: Parties, sdk: Sdk, cap: int, approved: int) returns (actions: seq<Action>, s: State)
    requires approved > cap
    ensures Run(p, Init(sdk, cap, 0), actions, s)
    ensures s.client == Client(sdk, cap, s.client.handleAuthorization, Some(0), Some(Answer(0, cap + 10)),
                               Some(cap + 10), true)
    ensures s.world == OneRevision(cap, {Answer(0, cap + 10)}, cap + 10, {0})
    ensures s.tasks == map[FIRST := Posting(Answer(0, cap + 10), cap + 10),
                           SECOND := Posting(Answer(0, cap + 10), CapHeld(sdk, cap + 10, approved))]
    ensures !s.lostProof
  {
    var start := Init(sdk, cap, 0);
    actions, s := TwoSend(p, sdk, cap, approved);
    actions, s := Credited(p, start, actions, s, 0, cap + 10);
  }

  /** The first finishes while the second has yet to clear what is pending. */
  lemma OneLags(p: Parties, sdk: Sdk, cap: int) returns (actions: seq<Action>, s: State)
    ensures Run(p, Init(sdk, cap, 0), actions, s)
    ensures NothingPending(s.client) && s.client.handleCap == cap + 10
    ensures s.world == OneRevision(cap, {Answer(0, cap + 10)}, cap + 10, {0})
    ensures s.tasks == map[SECOND := Updated(cap + 10)]
  {
    var start := Init(sdk, cap, 0);
    actions, s := TwoPost(p, sdk, cap, cap + 10);
    actions, s := Records(p, start, actions, s, FIRST, 0, cap + 10, cap + 10);
    actions, s := Records(p, start, actions, s, SECOND, 0, cap + 10, cap + 10);
    actions, s := Finishes(p, start, actions, s, FIRST, cap + 10);
  }

  /** A next refill is asked for. */
  lemma NextIsAsked(p: Parties, sdk: Sdk, cap: int) returns (actions: seq<Action>, s: State)
    ensures Run(p, Init(sdk, cap, 0), actions, s)
    ensures s.client.pendingRefill.None? && s.client.handleCap == cap + 10
    ensures s.world == OneRevision(cap, {Answer(0, cap + 10)}, cap + 10, {0}).(
                         nextKey := 2, revisionRequests := {(0, Body(0, cap + 10)), (1, Body(0, cap + 20))})
    ensures s.tasks == map[FIRST := Asking(1, Body(0, cap + 20)), SECOND := Updated(cap + 10)]
  {
    actions, s := OneLags(p, sdk, cap);
    actions, s := Asks(p, Init(sdk, cap, 0), actions, s, FIRST, cap + 20);
  }

  /** LOC answers: all that it committed before has been admitted. */
  lemma NextIsAnswered(p: Parties, sdk: Sdk, cap: int) returns (actions: seq<Action>, s: State)
    ensures Run(p, Init(sdk, cap, 0), actions, s)
    ensures s.client.handleCap == cap + 10 && s.world.locCap == cap + 20
    ensures s.world.nextKey == 2 && s.world.applied == {0}
    ensures s.world.revisions == map[0 := Entry(Body(0, cap + 10), Answer(0, cap + 10)),
                                     1 := Entry(Body(0, cap + 20), Answer(1, cap + 20))]
    ensures s.tasks == map[FIRST := Holding(Answer(1, cap + 20), cap + 20), SECOND := Updated(cap + 10)]
  {
    actions, s := NextIsAsked(p, sdk, cap);
    actions, s := Answered(p, Init(sdk, cap, 0), actions, s, FIRST, 1, 1, cap + 20);
  }

  /** A next refill is posted. */
  lemma NextIsPosted(p: Parties, sdk: Sdk, cap: int) returns (actions: seq<Action>, s: State)
    ensures Run(p, Init(sdk, cap, 0), actions, s)
    ensures s.client.handleCap == cap + 10 && s.world.locCap == cap + 20
    ensures s.world.nextKey == 2 && Unused(s.world, 2) && s.world.applied == {0} &&
            Answer(1, cap + 20) in s.world.topupRequests
    ensures s.tasks == map[FIRST := Posting(Answer(1, cap + 20), cap + 20), SECOND := Updated(cap + 10)]
  {
    actions, s := NextIsAnswered(p, sdk, cap);
    actions, s := Posts(p, Init(sdk, cap, 0), actions, s, FIRST, 1, cap + 20, cap + 20);
  }

  /** The handler that lagged clears the key that it is under. */
  lemma KeyIsCleared(p: Parties, sdk: Sdk, cap: int) returns (actions: seq<Action>, s: State)
    ensures Run(p, Init(sdk, cap, 0), actions, s)
    ensures NothingPending(s.client) && s.client.handleCap == cap + 10 && s.world.locCap == cap + 20
    ensures s.world.nextKey == 2 && Unused(s.world, 2) && s.world.applied == {0} &&
            Answer(1, cap + 20) in s.world.topupRequests
    ensures s.tasks == map[FIRST := Posting(Answer(1, cap + 20), cap + 20)]
  {
    var start := Init(sdk, cap, 0);
    actions, s := NextIsPosted(p, sdk, cap);
    actions, s := Finishes(p, start, actions, s, SECOND, cap + 10);
  }

  /** TypeScript's second handler records the cap that it was told, of a refill that is for less. */
  lemma TypeScriptPassesBroker(p: Parties, cap: int) returns (actions: seq<Action>, s: State)
    ensures Run(p, Init(TypeScript, cap, 0), actions, s)
    ensures s.client.handleCap == cap + 40 && s.world.brokerCap == cap + 10
  {
    var start := Init(TypeScript, cap, 0);
    actions, s := TwoPost(p, TypeScript, cap, cap + 40);
    actions, s := Records(p, start, actions, s, SECOND, 0, cap + 10, cap + 40);
  }

  /** Were LOC to answer while an earlier revision is not admitted, and the broker to admit that one after a later
      one, the broker itself would go below what it granted and the handle has. */
  lemma HandleCanPassBroker(sdk: Sdk, cap: int) returns (actions: seq<Action>, s: State)
    ensures Run(AnyOrder, Init(sdk, cap, 0), actions, s)
    ensures s.client.pendingKey.None? && s.client.handleCap > s.world.brokerCap
  {
    var p, start := AnyOrder, Init(sdk, cap, 0);
    actions, s := KeyIsCleared(p, sdk, cap);
    actions, s := Asks(p, start, actions, s, SECOND, cap + 30);
    actions, s := Answered(p, start, actions, s, SECOND, 2, 2, cap + 30);
    actions, s := Posts(p, start, actions, s, SECOND, 2, cap + 30, cap + 30);
    actions, s := Credited(p, start, actions, s, 2, cap + 30);
    actions, s := Records(p, start, actions, s, SECOND, 2, cap + 30, cap + 30);
    actions, s := Finishes(p, start, actions, s, SECOND, cap + 30);
    actions, s := Credited(p, start, actions, s, 1, cap + 20);
  }

  /** The one that finishes first takes the caller proof with it. */
  lemma ProofCanBeLost(p: Parties, cap: int) returns (actions: seq<Action>, s: State)
    ensures Run(p, Init(TypeScript, cap, 0), actions, s)
    ensures s.lostProof
  {
    var start := Init(TypeScript, cap, 0);
    actions, s := TwoPost(p, TypeScript, cap, cap + 10);
    actions, s := Records(p, start, actions, s, FIRST, 0, cap + 10, cap + 10);
    actions, s := Finishes(p, start, actions, s, FIRST, cap + 10);
    actions, s := FindsNoProof(p, start, actions, s, SECOND, 0, cap + 10, cap + 10);
  }

  lemma FindsNoProof(p: Parties, start: State, actions: seq<Action>, s: State, t: TaskId, n: nat, cap: int, held: int)
    returns (more: seq<Action>, u: State)
    requires Run(p, start, actions, s)
    requires t in s.tasks && s.tasks[t] == Posting(Answer(n, cap), held) && n in s.world.applied
    requires s.client.sdk.TypeScript? && !s.client.pendingProof
    ensures Run(p, start, more, u) && u.lostProof
  {
    more, u := Take(p, start, actions, s, PostAccepted(t));
    more, u := Take(p, start, more, u, Record(t));
  }

  // ---- Exactly how many handlers the results allow ----

  predicate AgreeAtRest(s: State) {
    s.client.pendingKey.None? ==> s.client.handleCap == s.world.brokerCap == s.world.locCap
  }

  predicate MayHappen(p: Parties, start: State, actions: seq<Action>, k: nat) {
    AtMost(start, actions, k) && AllRespect(p, start, actions)
  }

  /** No handler ever counts on more than the broker granted, nor the broker on more than LOC did. */
  ghost predicate CapsKeep(p: Parties, sdk: Sdk, k: nat) {
    forall cap, authorization, actions: seq<Action> | MayHappen(p, Init(sdk, cap, authorization), actions, k) ::
      InOrder(After(Init(sdk, cap, authorization), actions))
  }

  /** With no key pending the three caps are one. */
  ghost predicate CapsAgree(p: Parties, sdk: Sdk, k: nat) {
    forall cap, authorization, actions: seq<Action> | MayHappen(p, Init(sdk, cap, authorization), actions, k) ::
      AgreeAtRest(After(Init(sdk, cap, authorization), actions))
  }

  ghost predicate NeverLosesProof(p: Parties, sdk: Sdk, k: nat) {
    forall cap, authorization, actions: seq<Action> | MayHappen(p, Init(sdk, cap, authorization), actions, k) ::
      !After(Init(sdk, cap, authorization), actions).lostProof
  }

  lemma InTurnKeeps(sdk: Sdk, k: nat, cap: int, authorization: nat, actions: seq<Action>)
    requires k <= 1 && AtMost(Init(sdk, cap, authorization), actions, k)
    ensures var s := After(Init(sdk, cap, authorization), actions); InOrder(s) && AgreeAtRest(s) && !s.lostProof
  {
    AtMostMore(Init(sdk, cap, authorization), actions, k, 1);
    AtMostOneIsSerialized(Init(sdk, cap, authorization), actions);
    CapsInOrder(sdk, cap, authorization, actions);
  }

  lemma OrderedPartiesKeep(p: Parties, sdk: Sdk, cap: int, authorization: nat, actions: seq<Action>)
    requires !p.AnyOrder? && !sdk.TypeScript? && AllRespect(p, Init(sdk, cap, authorization), actions)
    ensures InOrder(After(Init(sdk, cap, authorization), actions))
  {
    if p.LocInTurn? { LocOrdersBroker(sdk, cap, authorization, actions); }
    RisingKeepsOrder(sdk, cap, authorization, actions);
  }

  lemma CapsCanBreak(p: Parties, sdk: Sdk) returns (actions: seq<Action>, s: State)
    requires p.AnyOrder? || sdk.TypeScript?
    ensures Run(p, Init(sdk, 0, 0), actions, s) && !InOrder(s)
  {
    if sdk.TypeScript? {
      actions, s := TypeScriptPassesBroker(p, 0);
    } else {
      actions, s := HandleCanPassBroker(sdk, 0);
    }
  }

  /** With parties in order Go and Rust keep the caps in order however many handlers overlap, and TypeScript exactly
      when they take turns. Without that order all three depend on turns. */
  lemma CapsKeepIff(p: Parties, sdk: Sdk, k: nat)
    ensures CapsKeep(p, sdk, k) <==> k <= 1 || (!p.AnyOrder? && !sdk.TypeScript?)
  {
    if k <= 1 || (!p.AnyOrder? && !sdk.TypeScript?) {
      forall cap, authorization, actions: seq<Action> | MayHappen(p, Init(sdk, cap, authorization), actions, k)
        ensures InOrder(After(Init(sdk, cap, authorization), actions))
      {
        if k <= 1 {
          InTurnKeeps(sdk, k, cap, authorization, actions);
        } else {
          OrderedPartiesKeep(p, sdk, cap, authorization, actions);
        }
      }
    } else {
      var actions, s := CapsCanBreak(p, sdk);
      AtMostMore(Init(sdk, 0, 0), actions, 2, k);
      assert MayHappen(p, Init(sdk, 0, 0), actions, k);
    }
  }

  /** That no key pending means equal caps needs turns in every SDK: a handler that lags clears another one's key. */
  lemma CapsAgreeIffInTurn(p: Parties, sdk: Sdk, k: nat)
    ensures CapsAgree(p, sdk, k) <==> k <= 1
  {
    if k <= 1 {
      forall cap, authorization, actions: seq<Action> | MayHappen(p, Init(sdk, cap, authorization), actions, k)
        ensures AgreeAtRest(After(Init(sdk, cap, authorization), actions))
      {
        InTurnKeeps(sdk, k, cap, authorization, actions);
      }
    } else {
      var actions, s := KeyIsCleared(p, sdk, 0);
      AtMostMore(Init(sdk, 0, 0), actions, 2, k);
      assert MayHappen(p, Init(sdk, 0, 0), actions, k) && !AgreeAtRest(s);
    }
  }

  lemma {:induction false} OnlyTypeScriptLosesProof(sdk: Sdk, cap: int, authorization: nat, actions: seq<Action>)
    requires !sdk.TypeScript?
    ensures var s := After(Init(sdk, cap, authorization), actions); s.client.sdk == sdk && !s.lostProof
  {
    if actions != [] {
      OnlyTypeScriptLosesProof(sdk, cap, authorization, actions[..|actions| - 1]);
      StepKeepsProof(After(Init(sdk, cap, authorization), actions[..|actions| - 1]), actions[|actions| - 1]);
    }
  }

  lemma StepKeepsProof(s: State, a: Action)
    ensures Step(s, a).client.sdk == s.client.sdk
    ensures !s.client.sdk.TypeScript? ==> Step(s, a).lostProof == s.lostProof
  {
  }

  /** An accepted refill always finds its caller proof, exactly in Go and Rust or when handlers take turns. */
  lemma ProofKeptIff(p: Parties, sdk: Sdk, k: nat)
    ensures NeverLosesProof(p, sdk, k) <==> !sdk.TypeScript? || k <= 1
  {
    if !sdk.TypeScript? || k <= 1 {
      forall cap, authorization, actions: seq<Action> | MayHappen(p, Init(sdk, cap, authorization), actions, k)
        ensures !After(Init(sdk, cap, authorization), actions).lostProof
      {
        if k <= 1 {
          InTurnKeeps(sdk, k, cap, authorization, actions);
        } else {
          OnlyTypeScriptLosesProof(sdk, cap, authorization, actions);
        }
      }
    } else {
      var actions, s := ProofCanBeLost(p, 0);
      AtMostMore(Init(sdk, 0, 0), actions, 2, k);
      assert MayHappen(p, Init(sdk, 0, 0), actions, k);
    }
  }
}
