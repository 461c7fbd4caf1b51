/** LOC and the broker in order. LOC commits only a cap above the one before, and answers with a revision only once
    the broker has admitted those before it; then the broker, too, only ever raises its cap, and in Go and Rust no
    handler counts on more than it granted, however handlers interleave. */
module RefillOrder {
  import opened Results
  import opened RefillProtocol

  // ---- What LOC and the broker keep to ----

  /** Nothing but the protocol; each only raises its cap; LOC keeps to its two checks and the broker to nothing. */
  datatype Parties = AnyOrder | Rising | LocInTurn

  type Revisions = map<Key, Entry>

  /** All that LOC committed below the revision under `key` has been admitted. */
  predicate PredecessorsAdmitted(revisions: Revisions, applied: set<nat>, key: Key)
    requires key in revisions
  {
    forall k :: k in revisions && revisions[k].body.maxTotalUnits < revisions[key].body.maxTotalUnits ==>
      revisions[k].answer.requestId in applied
  }

  predicate AnswerFires(s: State, t: TaskId) {
    && t in s.tasks && s.tasks[t].Asking?
    && s.tasks[t].key in s.world.revisions && s.world.revisions[s.tasks[t].key].body == s.tasks[t].body
  }

  /** What a step that takes place has to meet. */
  predicate Respects(p: Parties, s: State, a: Action) {
    match a
    case LocCommits(key, body, answer) =>
      MayCommit(s.world, key, body, answer) ==> p.AnyOrder? || body.maxTotalUnits > s.world.locCap
    case BrokerCommits(r) => MayCredit(s.world, r) && p.Rising? ==> r.authorization.value.cap > s.world.brokerCap
    case AskAnswered(t) =>
      AnswerFires(s, t) && p.LocInTurn? ==>
        PredecessorsAdmitted(s.world.revisions, s.world.applied, s.tasks[t].key)
    case _ => true
  }

  predicate AllRespect(p: Parties, s: State, actions: seq<Action>) {
    actions == [] ||
    var last := |actions| - 1;
    AllRespect(p, s, actions[..last]) && Respects(p, After(s, actions[..last]), actions[last])
  }

  // ---- What the world knows of its answers ----

  predicate IsAnswer(revisions: Revisions, r: Refill) { exists k :: k in revisions && revisions[k].answer == r }

  /** Answers are told apart by their request ids, authorize what was asked for, and that is within LOC's cap. */
  ghost predicate AnswersKnown(w: World) {
    && (forall k, m | k in w.revisions && m in w.revisions ::
          w.revisions[k].answer.requestId == w.revisions[m].answer.requestId ==> k == m)
    && (forall k :: k in w.revisions ==> w.revisions[k].body.maxTotalUnits <= w.locCap)
    && (forall k :: k in w.revisions && w.revisions[k].answer.authorization.Some? ==>
          w.revisions[k].answer.authorization.value.cap == w.revisions[k].body.maxTotalUnits)
    && (forall i :: i in w.applied ==> exists k :: k in w.revisions && w.revisions[k].answer.requestId == i)
    && (forall r :: r in w.topupRequests ==> IsAnswer(w.revisions, r))
  }

  lemma CommitKeepsAnswers(w: World, key: Key, body: Body, answer: Refill)
    requires AnswersKnown(w) && MayCommit(w, key, body, answer) && body.maxTotalUnits > w.locCap
    ensures var w' := DoLocCommits(w, key, body, answer);
            && AnswersKnown(w') && answer.requestId !in w.applied
            && forall r :: IsAnswer(w.revisions, r) ==> IsAnswer(w'.revisions, r)
  {
    var w' := DoLocCommits(w, key, body, answer);
    assert forall k :: k in w.revisions ==> k in w'.revisions && w'.revisions[k] == w.revisions[k];
    forall r | IsAnswer(w.revisions, r) ensures IsAnswer(w'.revisions, r) {
      var k :| k in w.revisions && w.revisions[k].answer == r;
      assert w'.revisions[k].answer == r;
    }
    forall i | i in w'.applied ensures exists k :: k in w'.revisions && w'.revisions[k].answer.requestId == i {
      var k :| k in w.revisions && w.revisions[k].answer.requestId == i;
      assert w'.revisions[k].answer.requestId == i;
    }
  }

  // ---- The order of the caps in Go and Rust ----

  /** A refill that is stored or held, with the cap it authorizes. */
  predicate Fits(w: World, r: Refill, cap: int) {
    IsAnswer(w.revisions, r) && (r.authorization.Some? ==> r.authorization.value.cap == cap)
  }

  predicate HeldFits(w: World, at: At) {
    match at
    case Holding(r, cap) => Fits(w, r, cap)
    case Posting(r, cap) => Fits(w, r, cap)
    case Accepted(r, cap) => Fits(w, r, cap) && r.requestId in w.applied
    case _ => true
  }

  predicate StoredFits(s: State) {
    s.client.pendingRefill.Some? ==>
      s.client.pendingCap.Some? && Fits(s.world, s.client.pendingRefill.value, s.client.pendingCap.value)
  }

  /** What the broker has credited is within its cap. */
  predicate CreditedWithin(w: World) {
    forall k :: k in w.revisions && w.revisions[k].answer.requestId in w.applied &&
                w.revisions[k].answer.authorization.Some? ==>
      w.revisions[k].answer.authorization.value.cap <= w.brokerCap
  }

  predicate InOrder(s: State) { s.client.handleCap <= s.world.brokerCap <= s.world.locCap }

  ghost predicate OrderInv(s: State) {
    && !s.client.sdk.TypeScript? && InOrder(s) && AnswersKnown(s.world) && CreditedWithin(s.world) && StoredFits(s)
    && forall t :: t in s.tasks ==> HeldFits(s.world, s.tasks[t])
  }

  lemma CommitKeepsOrder(s: State, key: Key, body: Body, answer: Refill)
    requires OrderInv(s) && MayCommit(s.world, key, body, answer) && body.maxTotalUnits > s.world.locCap
    ensures OrderInv(Step(s, LocCommits(key, body, answer)))
  {
    CommitKeepsAnswers(s.world, key, body, answer);
  }

  lemma CreditKeepsOrder(s: State, r: Refill)
    requires OrderInv(s) && MayCredit(s.world, r) && r.authorization.value.cap > s.world.brokerCap
    ensures OrderInv(Step(s, BrokerCommits(r)))
  {
    var k :| k in s.world.revisions && s.world.revisions[k].answer == r;
  }

  lemma EnterKeepsOrder(s: State, t: TaskId)
    requires OrderInv(s)
    ensures OrderInv(Step(s, Enter(t)))
  {
    HandlersOnlyAsk(s, Enter(t));
  }

  lemma AnswerKeepsOrder(s: State, t: TaskId)
    requires OrderInv(s)
    ensures OrderInv(Step(s, AskAnswered(t)))
  {
    if AnswerFires(s, t) {
      assert IsAnswer(s.world.revisions, s.world.revisions[s.tasks[t].key].answer);
    }
  }

  lemma PostKeepsOrder(s: State, t: TaskId)
    requires OrderInv(s)
    ensures OrderInv(Step(s, Post(t)))
  {
    HandlersOnlyAsk(s, Post(t));
  }

  /** The cap that a handler records is within what the broker credited. */
  lemma RecordKeepsOrder(s: State, t: TaskId)
    requires OrderInv(s)
    ensures OrderInv(Step(s, Record(t)))
  {
    if t in s.tasks && s.tasks[t].Accepted? {
      assert HeldFits(s.world, s.tasks[t]);
      var k :| k in s.world.revisions && s.world.revisions[k].answer == s.tasks[t].refill;
    }
  }

  lemma OtherStepsKeepOrder(s: State, a: Action)
    requires OrderInv(s)
    requires !a.LocCommits? && !a.BrokerCommits? && !a.Enter? && !a.AskAnswered? && !a.Post? && !a.Record?
    ensures OrderInv(Step(s, a))
  {
    assert Step(s, a).world == s.world;
  }

  lemma StepKeepsOrder(s: State, a: Action)
    requires OrderInv(s) && Respects(Rising, s, a)
    ensures OrderInv(Step(s, a))
  {
    match a
    case LocCommits(key, body, answer) =>
      if MayCommit(s.world, key, body, answer) { CommitKeepsOrder(s, key, body, answer); }
    case BrokerCommits(r) => if MayCredit(s.world, r) { CreditKeepsOrder(s, r); }
    case Enter(t) => EnterKeepsOrder(s, t);
    case AskAnswered(t) => AnswerKeepsOrder(s, t);
    case Post(t) => PostKeepsOrder(s, t);
    case Record(t) => RecordKeepsOrder(s, t);
    case _ => OtherStepsKeepOrder(s, a);
  }

  /** With parties that only raise their caps, Go and Rust keep the order in every interleaving of any number of
      handlers: none ever counts on more than the broker granted. */
  lemma {:induction false} RisingKeepsOrder(sdk: Sdk, cap: int, authorization: nat, actions: seq<Action>)
    requires !sdk.TypeScript? && AllRespect(Rising, Init(sdk, cap, authorization), actions)
    ensures OrderInv(After(Init(sdk, cap, authorization), actions))
  {
    if actions != [] {
      RisingKeepsOrder(sdk, cap, authorization, actions[..|actions| - 1]);
      StepKeepsOrder(After(Init(sdk, cap, authorization), actions[..|actions| - 1]), actions[|actions| - 1]);
    }
  }

  // ---- LOC's two checks make the broker rise ----

  /** `r` has been answered: all below it has been admitted. */
  predicate Cleared(revisions: Revisions, applied: set<nat>, r: Refill) {
    exists k :: k in revisions && revisions[k].answer == r && PredecessorsAdmitted(revisions, applied, k)
  }

  predicate HeldCleared(w: World, at: At) {
    match at
    case Holding(r, _) => Cleared(w.revisions, w.applied, r)
    case Posting(r, _) => Cleared(w.revisions, w.applied, r)
    case Accepted(r, _) => Cleared(w.revisions, w.applied, r)
    case _ => true
  }

  /** Each revision is above the first cap and no two are for one cap. */
  predicate CapsDiffer(w: World, start: int) {
    && (forall k :: k in w.revisions ==> w.revisions[k].body.maxTotalUnits > start)
    && (forall k, m | k in w.revisions && m in w.revisions ::
          w.revisions[k].body.maxTotalUnits == w.revisions[m].body.maxTotalUnits ==> k == m)
  }

  /** The broker is at the first cap or at that of a top-up it was sent and has credited. */
  predicate BrokerAt(w: World, start: int) {
    w.brokerCap == start ||
    exists r :: r in w.topupRequests && r.requestId in w.applied && r.authorization.Some? &&
                r.authorization.value.cap == w.brokerCap
  }

  ghost predicate WorldInTurn(w: World, start: int) {
    && start <= w.locCap && AnswersKnown(w) && CapsDiffer(w, start) && BrokerAt(w, start)
    && forall r :: r in w.topupRequests ==> Cleared(w.revisions, w.applied, r)
  }

  predicate HandlersInTurn(s: State) {
    && (s.client.pendingRefill.Some? ==> Cleared(s.world.revisions, s.world.applied, s.client.pendingRefill.value))
    && forall t :: t in s.tasks ==> HeldCleared(s.world, s.tasks[t])
  }

  ghost predicate TurnInv(s: State, start: int) { WorldInTurn(s.world, start) && HandlersInTurn(s) }

  /** What is cleared stays so: later revisions are above it. */
  lemma CommitKeepsCleared(w: World, key: Key, body: Body, answer: Refill, r: Refill)
    requires AnswersKnown(w) && MayCommit(w, key, body, answer) && body.maxTotalUnits > w.locCap
    requires Cleared(w.revisions, w.applied, r)
    ensures Cleared(DoLocCommits(w, key, body, answer).revisions, w.applied, r)
  {
    var w' := DoLocCommits(w, key, body, answer);
    var k :| k in w.revisions && w.revisions[k].answer == r && PredecessorsAdmitted(w.revisions, w.applied, k);
    assert w'.revisions[k] == w.revisions[k] && PredecessorsAdmitted(w'.revisions, w.applied, k);
  }

  lemma CommitKeepsTurn(s: State, key: Key, body: Body, answer: Refill, start: int)
    requires TurnInv(s, start) && MayCommit(s.world, key, body, answer) && body.maxTotalUnits > s.world.locCap
    ensures TurnInv(Step(s, LocCommits(key, body, answer)), start)
  {
    CommitKeepsAnswers(s.world, key, body, answer);
    var w' := DoLocCommits(s.world, key, body, answer);
    forall r | Cleared(s.world.revisions, s.world.applied, r) ensures Cleared(w'.revisions, w'.applied, r) {
      CommitKeepsCleared(s.world, key, body, answer, r);
    }
  }

  /** ... and what was admitted stays admitted. */
  lemma CreditKeepsCleared(revisions: Revisions, applied: set<nat>, more: set<nat>, r: Refill)
    requires applied <= more && Cleared(revisions, applied, r)
    ensures Cleared(revisions, more, r)
  {
    var k :| k in revisions && revisions[k].answer == r && PredecessorsAdmitted(revisions, applied, k);
    assert PredecessorsAdmitted(revisions, more, k);
  }

  /** A top-up that was not credited is above all that were. */
  lemma CreditRises(w: World, r: Refill, start: int)
    requires WorldInTurn(w, start) && MayCredit(w, r)
    ensures r.authorization.value.cap > w.brokerCap
  {
    var k :| k in w.revisions && w.revisions[k].answer == r;
    if w.brokerCap != start {
      var q :| q in w.topupRequests && q.requestId in w.applied && q.authorization.Some? &&
               q.authorization.value.cap == w.brokerCap;
      var m :| m in w.revisions && w.revisions[m].answer == q && PredecessorsAdmitted(w.revisions, w.applied, m);
      assert k != m;
      assert w.revisions[k].body.maxTotalUnits >= w.revisions[m].body.maxTotalUnits;
    }
  }

  lemma CreditKeepsWorld(w: World, r: Refill, start: int)
    requires WorldInTurn(w, start) && MayCredit(w, r)
    ensures WorldInTurn(DoBrokerCommits(w, r), start)
  {
    var w' := DoBrokerCommits(w, r);
    forall q | q in w'.topupRequests ensures Cleared(w'.revisions, w'.applied, q) {
      CreditKeepsCleared(w.revisions, w.applied, w'.applied, q);
    }
    var k :| k in w.revisions && w.revisions[k].answer == r;
    assert r in w'.topupRequests && r.requestId in w'.applied;
  }

  lemma CreditKeepsHandlers(s: State, r: Refill)
    requires HandlersInTurn(s) && MayCredit(s.world, r)
    ensures HandlersInTurn(Step(s, BrokerCommits(r)))
  {
    var w, w' := s.world, DoBrokerCommits(s.world, r);
    forall q | Cleared(w.revisions, w.applied, q) ensures Cleared(w'.revisions, w'.applied, q) {
      CreditKeepsCleared(w.revisions, w.applied, w'.applied, q);
    }
  }

  lemma AnswerKeepsTurn(s: State, t: TaskId, start: int)
    requires TurnInv(s, start) && Respects(LocInTurn, s, AskAnswered(t))
    ensures TurnInv(Step(s, AskAnswered(t)), start)
  {
    if AnswerFires(s, t) {
      assert Cleared(s.world.revisions, s.world.applied, s.world.revisions[s.tasks[t].key].answer);
    }
  }

  /** What a handler changes in the world: keys taken, requests made and, when it posts, its refill sent. */
  lemma HandlersOnlyAsk(s: State, a: Action)
    requires !a.LocCommits? && !a.BrokerCommits?
    ensures var w, w' := s.world, Step(s, a).world;
            && w' == w.(nextKey := w'.nextKey, revisionRequests := w'.revisionRequests,
                        topupRequests := w'.topupRequests)
            && w'.topupRequests == if a.Post? && a.t in s.tasks && s.tasks[a.t].Holding? && Usable(s.tasks[a.t].refill)
                                   then w.topupRequests + {s.tasks[a.t].refill} else w.topupRequests
  {
  }

  lemma SentKeepsWorld(w: World, w': World, sent: set<Refill>, start: int)
    requires WorldInTurn(w, start)
    requires w' == w.(nextKey := w'.nextKey, revisionRequests := w'.revisionRequests,
                      topupRequests := w.topupRequests + sent)
    requires forall r :: r in sent ==> Cleared(w.revisions, w.applied, r)
    ensures WorldInTurn(w', start)
  {
    if w.brokerCap != start {
      var q :| q in w.topupRequests && q.requestId in w.applied && q.authorization.Some? &&
               q.authorization.value.cap == w.brokerCap;
      assert q in w'.topupRequests;
    }
  }

  lemma HandlersKeepWorld(s: State, a: Action, start: int)
    requires TurnInv(s, start) && !a.LocCommits? && !a.BrokerCommits?
    ensures WorldInTurn(Step(s, a).world, start)
  {
    HandlersOnlyAsk(s, a);
    if a.Post? && a.t in s.tasks && s.tasks[a.t].Holding? && Usable(s.tasks[a.t].refill) {
      assert HeldCleared(s.world, s.tasks[a.t]);
      SentKeepsWorld(s.world, Step(s, a).world, {s.tasks[a.t].refill}, start);
    } else {
      SentKeepsWorld(s.world, Step(s, a).world, {}, start);
    }
  }

  lemma EnterKeepsHandlers(s: State, t: TaskId)
    requires HandlersInTurn(s)
    ensures HandlersInTurn(Step(s, Enter(t)))
  {
    HandlersOnlyAsk(s, Enter(t));
  }

  lemma OtherStepsKeepHandlers(s: State, a: Action)
    requires HandlersInTurn(s) && !a.LocCommits? && !a.BrokerCommits? && !a.AskAnswered? && !a.Enter?
    ensures HandlersInTurn(Step(s, a))
  {
    HandlersOnlyAsk(s, a);
  }

  lemma StepKeepsTurn(s: State, a: Action, start: int)
    requires TurnInv(s, start) && Respects(LocInTurn, s, a)
    ensures TurnInv(Step(s, a), start) && Respects(Rising, s, a)
  {
    match a
    case LocCommits(key, body, answer) =>
      if MayCommit(s.world, key, body, answer) { CommitKeepsTurn(s, key, body, answer, start); }
    case BrokerCommits(r) =>
      if MayCredit(s.world, r) {
        CreditRises(s.world, r, start);
        CreditKeepsWorld(s.world, r, start);
        CreditKeepsHandlers(s, r);
      }
    case AskAnswered(t) => AnswerKeepsTurn(s, t, start);
    case Enter(t) =>
      HandlersKeepWorld(s, a, start);
      EnterKeepsHandlers(s, t);
    case _ =>
      HandlersKeepWorld(s, a, start);
      OtherStepsKeepHandlers(s, a);
  }

  /** When LOC keeps to its two checks the broker only ever raises its cap, in every interleaving of every SDK. */
  lemma {:induction false} LocOrdersBroker(sdk: Sdk, cap: int, authorization: nat, actions: seq<Action>)
    requires AllRespect(LocInTurn, Init(sdk, cap, authorization), actions)
    ensures AllRespect(Rising, Init(sdk, cap, authorization), actions)
    ensures TurnInv(After(Init(sdk, cap, authorization), actions), cap)
  {
    if actions != [] {
      LocOrdersBroker(sdk, cap, authorization, actions[..|actions| - 1]);
      StepKeepsTurn(After(Init(sdk, cap, authorization), actions[..|actions| - 1]), actions[|actions| - 1], cap);
    }
  }
}
