/** What the refill protocol keeps: pairing in every interleaving, and the order of the three caps, one key and
    one top-up at a time, when balance events are handled one by one. */
module RefillProofs {
  import opened Results
  import opened RefillProtocol

  // ---- Every interleaving ----

  /** A stored refill has its cap beside it. */
  predicate Paired(s: State) {
    (s.client.pendingRefill.Some? ==> s.client.pendingCap.Some?) && !s.lostCap
  }

  lemma StepKeepsPaired(s: State, a: Action)
    requires Paired(s)
    ensures Paired(Step(s, a))
  {
  }

  /** However handlers interleave, no SDK ever finds a stored refill without its cap. */
  lemma {:induction false} CapNeverLost(sdk: Sdk, cap: int, authorization: nat, actions: seq<Action>)
    ensures Paired(After(Init(sdk, cap, authorization), actions))
  {
    if actions != [] {
      CapNeverLost(sdk, cap, authorization, actions[..|actions| - 1]);
      StepKeepsPaired(After(Init(sdk, cap, authorization), actions[..|actions| - 1]), actions[|actions| - 1]);
    }
  }

  // ---- Serialized runs: the network and the parties ----

  /** Keys in use come from the supply, and a request that LOC has not committed is for the pending key. */
  ghost predicate KeysInUse(s: State) {
    var c, w := s.client, s.world;
    && (c.pendingKey.Some? ==> c.pendingKey.value < w.nextKey)
    && (forall k :: k in w.revisions ==> k < w.nextKey)
    && (forall p :: p in w.revisionRequests ==> p.0 < w.nextKey)
    && (forall p :: p in w.revisionRequests && p.0 !in w.revisions ==>
          c.pendingKey == Some(p.0) && p.1.maxTotalUnits > s.settledCap)
  }

  /** Answers are told apart by their request ids and authorize what was asked for. */
  ghost predicate AnswersInUse(s: State) {
    var w := s.world;
    && (forall k, m | k in w.revisions && m in w.revisions ::
          w.revisions[k].answer.requestId == w.revisions[m].answer.requestId ==> k == m)
    && (forall k :: k in w.revisions && w.revisions[k].answer.authorization.Some? ==>
          w.revisions[k].answer.authorization.value.cap == w.revisions[k].body.maxTotalUnits)
    && (forall i :: i in w.applied ==> exists k :: k in w.revisions && w.revisions[k].answer.requestId == i)
  }

  /** A top-up that was sent and not credited is the stored refill. */
  ghost predicate TopupsInUse(s: State) {
    var w := s.world;
    forall r :: r in w.topupRequests ==> Usable(r) && (r.requestId in w.applied || s.client.pendingRefill == Some(r))
  }

  /** The revision under way has been committed by LOC. */
  predicate Committed(s: State) {
    s.client.pendingKey.Some? && s.client.pendingKey.value in s.world.revisions
  }

  function Current(s: State): Entry
    requires Committed(s)
  {
    s.world.revisions[s.client.pendingKey.value]
  }

  /** Before LOC commits, all caps are the settled one; after, each party has that or the new cap, and no
      party is ahead of the one before it. */
  predicate Caps(s: State) {
    var c, w := s.client, s.world;
    if !Committed(s) then
      && c.pendingRefill.None? && (c.pendingKey.None? ==> c.pendingCap.None?)
      && c.handleCap == w.brokerCap == w.locCap == s.settledCap
    else
      var e := Current(s);
      && w.locCap == e.body.maxTotalUnits > s.settledCap
      && (c.pendingRefill.Some? ==> c.pendingRefill == Some(e.answer) && c.pendingCap == Some(w.locCap))
      && (if e.answer.requestId in w.applied
          then w.brokerCap == w.locCap && c.pendingRefill.Some? && c.handleCap in {s.settledCap, w.locCap}
          else w.brokerCap == s.settledCap && c.handleCap == s.settledCap)
  }

  /** What holds of the handler at work. */
  predicate TaskFits(s: State, at: At) {
    var c, w := s.client, s.world;
    match at
    case Consulting(cap) => cap == c.handleCap && !StopsWithoutRefill(c)
    case Approved(body) =>
      if StopsWithoutRefill(c) then c.pendingCap == Some(body.maxTotalUnits) else body.maxTotalUnits > c.handleCap
    case Asking(key, body) =>
      c.pendingKey == Some(key) && c.pendingRefill.None? && body.maxTotalUnits > s.settledCap
    case Holding(refill, cap) => c.pendingRefill == Some(refill) && c.pendingCap == Some(cap)
    case Posting(refill, cap) =>
      && c.pendingRefill == Some(refill) && c.pendingCap == Some(cap) && c.pendingProof
      && refill in w.topupRequests
    case Accepted(refill, cap) =>
      && c.pendingRefill == Some(refill) && c.pendingCap == Some(cap) && c.pendingProof
      && refill in w.topupRequests && refill.requestId in w.applied
    case Updated(cap) =>
      Committed(s) && Current(s).answer.requestId in w.applied && cap == c.handleCap == w.locCap
  }

  ghost predicate OneTask(s: State) {
    && (forall t :: t in s.tasks ==> TaskFits(s, s.tasks[t]))
    && (forall t, u :: t in s.tasks && u in s.tasks ==> t == u)
    && !s.lostProof
  }

  // ---- Serialized runs: the log ----

  /** The key that LOC was last asked with since the last finished refill. */
  function OpenKey(log: seq<Note>): Option<Key> {
    if log == [] then None
    else match log[|log| - 1]
      case Asked(key, _) => Some(key)
      case ToppedUp(_) => OpenKey(log[..|log| - 1])
      case Refilled(_) => None
  }

  /** The refill that was last sent to the broker since the last finished one. */
  function OpenRefill(log: seq<Note>): Option<Refill> {
    if log == [] then None
    else match log[|log| - 1]
      case Asked(_, _) => OpenRefill(log[..|log| - 1])
      case ToppedUp(refill) => Some(refill)
      case Refilled(_) => None
  }

  function LastCap(log: seq<Note>, start: int): int {
    if log == [] then start
    else match log[|log| - 1]
      case Refilled(cap) => cap
      case _ => LastCap(log[..|log| - 1], start)
  }

  /** Each note agrees with what is open, and each finished refill raises the cap. */
  predicate InTurn(log: seq<Note>, start: int) {
    log == [] ||
    var before := log[..|log| - 1];
    && InTurn(before, start)
    && match log[|log| - 1]
       case Asked(key, _) => OpenKey(before).None? || OpenKey(before) == Some(key)
       case ToppedUp(refill) => OpenRefill(before).None? || OpenRefill(before) == Some(refill)
       case Refilled(cap) => cap > LastCap(before, start)
  }

  predicate LogFits(s: State, start: int) {
    && InTurn(s.log, start) && LastCap(s.log, start) == s.settledCap
    && (OpenKey(s.log).Some? ==> OpenKey(s.log) == s.client.pendingKey)
    && (OpenRefill(s.log).Some? ==> OpenRefill(s.log) == s.client.pendingRefill)
  }

  /** LOC has committed one revision for each finished refill, and perhaps the one under way. */
  predicate Counted(s: State) {
    |s.world.revisions| == s.refills + if Committed(s) then 1 else 0
  }

  ghost predicate WorldFits(s: State) { KeysInUse(s) && AnswersInUse(s) && TopupsInUse(s) && Counted(s) }

  ghost predicate Inv(s: State, start: int) { WorldFits(s) && Caps(s) && OneTask(s) && LogFits(s, start) }

  lemma LogAppend(log: seq<Note>, n: Note, start: int)
    ensures InTurn(log + [n], start) <==>
            InTurn(log, start) && match n
              case Asked(key, _) => OpenKey(log).None? || OpenKey(log) == Some(key)
              case ToppedUp(refill) => OpenRefill(log).None? || OpenRefill(log) == Some(refill)
              case Refilled(cap) => cap > LastCap(log, start)
    ensures OpenKey(log + [n]) == if n.Asked? then Some(n.key) else if n.Refilled? then None else OpenKey(log)
    ensures OpenRefill(log + [n]) == if n.ToppedUp? then Some(n.refill) else if n.Refilled? then None
            else OpenRefill(log)
    ensures LastCap(log + [n], start) == if n.Refilled? then n.cap else LastCap(log, start)
  {
    assert (log + [n])[..|log + [n]| - 1] == log;
  }

  /** The handler at work moves on. */
  lemma Moves(s: State, s': State, t: TaskId, at: At)
    requires OneTask(s) && t in s.tasks && s'.tasks == s.tasks[t := at] && !s'.lostProof
    requires TaskFits(s', at)
    ensures OneTask(s')
  {
  }

  /** The handler at work stops. */
  lemma Stops(s: State, s': State, t: TaskId)
    requires OneTask(s) && t in s.tasks && s'.tasks == s.tasks - {t} && !s'.lostProof
    ensures OneTask(s')
  {
  }

  /** The first and only handler starts. */
  lemma Begins(s: State, s': State, t: TaskId, at: At)
    requires s.tasks == map[] && s'.tasks == map[t := at] && !s'.lostProof && TaskFits(s', at)
    ensures OneTask(s')
  {
  }

  /** A step that leaves the parties, the log and what is pending alone. */
  lemma OnlyHandleOrTasks(s: State, s': State, start: int)
    requires Inv(s, start)
    requires s' == s.(tasks := s'.tasks, client := s.client.(handleCap := s'.client.handleCap,
                      handleAuthorization := s'.client.handleAuthorization, pendingProof := s'.client.pendingProof))
    requires Caps(s') && OneTask(s')
    ensures Inv(s', start)
  {
  }

  lemma StartKeeps(s: State, t: TaskId, observed: int, start: int)
    requires Inv(s, start) && s.tasks == map[]
    ensures Inv(Step(s, Start(t, observed)), start)
  {
    var s' := Step(s, Start(t, observed));
    assert s'.tasks == map[t := s'.tasks[t]];
    Begins(s, s', t, s'.tasks[t]);
    OnlyHandleOrTasks(s, s', start);
  }

  lemma ApproveKeeps(s: State, t: TaskId, body: Body, start: int)
    requires Inv(s, start)
    ensures Inv(Step(s, Approve(t, body)), start)
  {
    if t in s.tasks && s.tasks[t].Consulting? {
      var s' := Step(s, Approve(t, body));
      if t in s'.tasks { Moves(s, s', t, Approved(body)); } else { Stops(s, s', t); }
      OnlyHandleOrTasks(s, s', start);
    }
  }

  lemma AskKeeps(s: State, t: TaskId, body: Body, start: int)
    requires Inv(s, start) && t in s.tasks && s.tasks[t] == Approved(body) && s.client.pendingRefill.None?
    ensures Inv(DoEnter(s, t, body), start)
  {
    var s' := DoEnter(s, t, body);
    var key := s'.client.pendingKey.value;
    LogAppend(s.log, Asked(key, body), start);
    Moves(s, s', t, Asking(key, body));
    assert body.maxTotalUnits > s.settledCap;
    assert Committed(s') == Committed(s);
  }

  lemma ResumeKeeps(s: State, t: TaskId, body: Body, start: int)
    requires Inv(s, start) && t in s.tasks && s.tasks[t] == Approved(body) && s.client.pendingRefill.Some?
    ensures Inv(DoEnter(s, t, body), start)
  {
    var s' := DoEnter(s, t, body);
    assert Committed(s) && s'.client == s.client && s'.world == s.world;
    Moves(s, s', t, Holding(s.client.pendingRefill.value, s.client.pendingCap.value));
  }

  lemma EnterKeeps(s: State, t: TaskId, start: int)
    requires Inv(s, start)
    ensures Inv(Step(s, Enter(t)), start)
  {
    if t in s.tasks && s.tasks[t].Approved? {
      if s.client.pendingRefill.None? {
        AskKeeps(s, t, s.tasks[t].body, start);
      } else {
        ResumeKeeps(s, t, s.tasks[t].body, start);
      }
    }
  }

  lemma LocCommitsKeepsAnswers(s: State, key: Key, body: Body, answer: Refill)
    requires AnswersInUse(s) && MayCommit(s.world, key, body, answer)
    ensures AnswersInUse(Step(s, LocCommits(key, body, answer)))
  {
    var w, w' := s.world, DoLocCommits(s.world, key, body, answer);
    forall i | i in w'.applied ensures exists k :: k in w'.revisions && w'.revisions[k].answer.requestId == i {
      var k :| k in w.revisions && w.revisions[k].answer.requestId == i;
      assert k in w'.revisions && w'.revisions[k] == w.revisions[k];
    }
  }

  lemma LocCommitsKeepsRequests(s: State, key: Key, body: Body, answer: Refill)
    requires WorldFits(s) && Caps(s) && MayCommit(s.world, key, body, answer)
    ensures var s' := Step(s, LocCommits(key, body, answer)); KeysInUse(s') && TopupsInUse(s') && Counted(s')
  {
    assert s.client.pendingKey == Some(key) && !Committed(s);
  }

  /** Until the commit every party is at the settled cap and nothing is stored. */
  lemma LocCommitsKeepsCaps(s: State, key: Key, body: Body, answer: Refill)
    requires KeysInUse(s) && AnswersInUse(s) && Caps(s) && MayCommit(s.world, key, body, answer)
    ensures Caps(Step(s, LocCommits(key, body, answer)))
  {
    var s' := Step(s, LocCommits(key, body, answer));
    assert s.client.pendingKey == Some(key) && body.maxTotalUnits > s.settledCap;
    assert Committed(s') && Current(s') == Entry(body, answer);
    assert answer.requestId !in s.world.applied;
  }

  lemma LocCommitsKeepsTask(s: State, key: Key, body: Body, answer: Refill)
    requires KeysInUse(s) && Caps(s) && OneTask(s) && MayCommit(s.world, key, body, answer)
    ensures OneTask(Step(s, LocCommits(key, body, answer)))
  {
    var s' := Step(s, LocCommits(key, body, answer));
    assert s.client.pendingKey == Some(key) && !Committed(s);
    forall t | t in s.tasks ensures TaskFits(s', s.tasks[t]) {
      assert TaskFits(s, s.tasks[t]);
    }
  }

  lemma LocCommitsKeeps(s: State, key: Key, body: Body, answer: Refill, start: int)
    requires Inv(s, start)
    ensures Inv(Step(s, LocCommits(key, body, answer)), start)
  {
    if MayCommit(s.world, key, body, answer) {
      LocCommitsKeepsAnswers(s, key, body, answer);
      LocCommitsKeepsRequests(s, key, body, answer);
      LocCommitsKeepsCaps(s, key, body, answer);
      LocCommitsKeepsTask(s, key, body, answer);
    }
  }

  lemma AskAnsweredKeeps(s: State, t: TaskId, start: int)
    requires Inv(s, start)
    ensures Inv(Step(s, AskAnswered(t)), start)
  {
  }

  lemma AskEmptyKeeps(s: State, t: TaskId, start: int)
    requires Inv(s, start)
    ensures Inv(Step(s, AskEmpty(t)), start)
  {
  }

  lemma PostKeeps(s: State, t: TaskId, start: int)
    requires Inv(s, start)
    ensures Inv(Step(s, Post(t)), start)
  {
    if t in s.tasks && s.tasks[t].Holding? {
      var refill, cap := s.tasks[t].refill, s.tasks[t].cap;
      var s' := DoPost(s, t, refill, cap);
      if Usable(refill) {
        LogAppend(s.log, ToppedUp(refill), start);
        Moves(s, s', t, Posting(refill, cap));
        assert TopupsInUse(s');
      } else {
        Stops(s, s', t);
        OnlyHandleOrTasks(s, s', start);
      }
    }
  }

  lemma BrokerCommitsKeeps(s: State, r: Refill, start: int)
    requires Inv(s, start)
    ensures Inv(Step(s, BrokerCommits(r)), start)
  {
  }

  lemma PostAcceptedKeeps(s: State, t: TaskId, start: int)
    requires Inv(s, start)
    ensures Inv(Step(s, PostAccepted(t)), start)
  {
    var s' := Step(s, PostAccepted(t));
    if s' != s {
      Moves(s, s', t, s'.tasks[t]);
      OnlyHandleOrTasks(s, s', start);
    }
  }

  lemma RecordKeeps(s: State, t: TaskId, start: int)
    requires Inv(s, start)
    ensures Inv(Step(s, Record(t)), start)
  {
    if t in s.tasks && s.tasks[t].Accepted? {
      var refill, cap := s.tasks[t].refill, s.tasks[t].cap;
      var s' := DoRecord(s, t, refill, cap);
      assert Committed(s) && refill == Current(s).answer && cap == s.world.locCap;
      assert Committed(s') && Current(s') == Current(s);
      Moves(s, s', t, Updated(cap));
      OnlyHandleOrTasks(s, s', start);
    }
  }

  lemma RecordAuthorizationOnlyKeeps(s: State, t: TaskId, start: int)
    requires Inv(s, start)
    ensures Inv(Step(s, RecordAuthorizationOnly(t)), start)
  {
  }

  lemma FinishKeeps(s: State, t: TaskId, start: int)
    requires Inv(s, start)
    ensures Inv(Step(s, Finish(t)), start)
  {
    if t in s.tasks && s.tasks[t].Updated? {
      LogAppend(s.log, Refilled(s.tasks[t].cap), start);
    }
  }

  lemma FailKeeps(s: State, t: TaskId, start: int)
    requires Inv(s, start)
    ensures Inv(Step(s, Action.Fail(t)), start)
  {
  }

  lemma StepKeepsInv(s: State, a: Action, start: int)
    requires Inv(s, start) && (a.Start? ==> s.tasks == map[])
    ensures Inv(Step(s, a), start)
  {
    match a
    case Start(t, observed) => StartKeeps(s, t, observed, start);
    case Approve(t, body) => ApproveKeeps(s, t, body, start);
    case Enter(t) => EnterKeeps(s, t, start);
    case LocCommits(key, body, answer) => LocCommitsKeeps(s, key, body, answer, start);
    case AskAnswered(t) => AskAnsweredKeeps(s, t, start);
    case AskEmpty(t) => AskEmptyKeeps(s, t, start);
    case Post(t) => PostKeeps(s, t, start);
    case BrokerCommits(r) => BrokerCommitsKeeps(s, r, start);
    case PostAccepted(t) => PostAcceptedKeeps(s, t, start);
    case Record(t) => RecordKeeps(s, t, start);
    case RecordAuthorizationOnly(t) => RecordAuthorizationOnlyKeeps(s, t, start);
    case Finish(t) => FinishKeeps(s, t, start);
    case Fail(t) => FailKeeps(s, t, start);
  }

  lemma {:induction false} SerializedKeepsInv(sdk: Sdk, cap: int, authorization: nat, actions: seq<Action>)
    requires Serialized(Init(sdk, cap, authorization), actions)
    ensures Inv(After(Init(sdk, cap, authorization), actions), cap)
  {
    if actions != [] {
      SerializedKeepsInv(sdk, cap, authorization, actions[..|actions| - 1]);
      StepKeepsInv(After(Init(sdk, cap, authorization), actions[..|actions| - 1]), actions[|actions| - 1], cap);
    }
  }

  /** A serialized run may be taken up again where it ended. */
  lemma {:induction false} SerializedAppend(s: State, actions: seq<Action>, more: seq<Action>)
    requires Serialized(s, actions) && Serialized(After(s, actions), more)
    ensures Serialized(s, actions + more) && After(s, actions + more) == After(After(s, actions), more)
  {
    if more == [] {
      assert actions + more == actions;
    } else {
      var before := more[..|more| - 1];
      SerializedAppend(s, actions, before);
      assert (actions + more)[..|actions + more| - 1] == actions + before;
    }
  }

  lemma StepSettlesCap(s: State, a: Action, start: int)
    requires Inv(s, start)
    ensures var t := Step(s, a);
            (t.refills == s.refills && t.settledCap == s.settledCap) ||
            (t.refills == s.refills + 1 && t.settledCap > s.settledCap)
  {
    if a.Finish? && a.t in s.tasks && s.tasks[a.t].Updated? {
      assert TaskFits(s, s.tasks[a.t]);
    }
  }

  /** From any point of a serialized run on, the cap that finished refills leave rises exactly when one finishes. */
  lemma {:induction false} RefillsRaiseCap(s: State, actions: seq<Action>, start: int)
    requires Inv(s, start) && Serialized(s, actions)
    ensures var t := After(s, actions);
            && Inv(t, start) && s.refills <= t.refills && s.settledCap <= t.settledCap
            && (t.settledCap > s.settledCap <==> t.refills > s.refills)
  {
    if actions != [] {
      var before, last := actions[..|actions| - 1], actions[|actions| - 1];
      RefillsRaiseCap(s, before, start);
      StepSettlesCap(After(s, before), last, start);
      StepKeepsInv(After(s, before), last, start);
    }
  }

  // ---- The results for serialized runs ----

  /** Whatever is lost, delayed or repeated: the SDK never counts on more than the broker granted, nor the
      broker on more than LOC did, and with no refill under way all three agree. */
  lemma CapsInOrder(sdk: Sdk, cap: int, authorization: nat, actions: seq<Action>)
    requires Serialized(Init(sdk, cap, authorization), actions)
    ensures var s := After(Init(sdk, cap, authorization), actions);
            && s.client.handleCap <= s.world.brokerCap <= s.world.locCap
            && (s.client.pendingKey.None? ==> s.client.handleCap == s.world.brokerCap == s.world.locCap)
            && !s.lostCap && !s.lostProof
  {
    SerializedKeepsInv(sdk, cap, authorization, actions);
    CapNeverLost(sdk, cap, authorization, actions);
  }

  lemma StepNeverLowersHandle(s: State, a: Action, start: int)
    requires Inv(s, start)
    ensures s.client.handleCap <= Step(s, a).client.handleCap
  {
    if a.Record? && a.t in s.tasks && s.tasks[a.t].Accepted? {
      assert TaskFits(s, s.tasks[a.t]);
    }
  }

  /** The handle's cap never goes down, not even when a top-up is accepted and its refill stays pending. */
  lemma {:induction false} HandleNeverDrops(sdk: Sdk, cap: int, authorization: nat, actions: seq<Action>, i: nat)
    requires Serialized(Init(sdk, cap, authorization), actions) && i <= |actions|
    ensures After(Init(sdk, cap, authorization), actions[..i]).client.handleCap
            <= After(Init(sdk, cap, authorization), actions).client.handleCap
  {
    var last := |actions| - 1;
    if i == |actions| {
      assert actions[..i] == actions;
    } else {
      HandleNeverDrops(sdk, cap, authorization, actions[..last], i);
      assert actions[..last][..i] == actions[..i];
      SerializedKeepsInv(sdk, cap, authorization, actions[..last]);
      StepNeverLowersHandle(After(Init(sdk, cap, authorization), actions[..last]), actions[last], cap);
    }
  }

  /** The handle's authorization and cap are the first ones, or those of a credited answer of LOC. In Rust the
      authorization may be ahead: it moves although the cap cannot. */
  predicate HandleSigned(s: State, cap: int, authorization: nat) {
    var c, w := s.client, s.world;
    || (c.handleAuthorization == authorization && c.handleCap == cap)
    || exists k :: k in w.revisions && w.revisions[k].answer.requestId in w.applied &&
         w.revisions[k].answer.authorization.Some? &&
         w.revisions[k].answer.authorization.value.id == c.handleAuthorization &&
         (if c.sdk.Rust? then c.handleCap <= w.revisions[k].answer.authorization.value.cap
          else c.handleCap == w.revisions[k].answer.authorization.value.cap)
  }

  /** The world only learns more answers and credits. */
  predicate WorldGrows(w: World, w': World) {
    w.applied <= w'.applied && forall k :: k in w.revisions ==> k in w'.revisions && w'.revisions[k] == w.revisions[k]
  }

  lemma StepGrows(s: State, a: Action)
    ensures WorldGrows(s.world, Step(s, a).world)
  {
  }

  lemma OnlyRecordsMoveHandle(s: State, a: Action)
    ensures Step(s, a).client.sdk == s.client.sdk
    ensures !a.Record? && !a.RecordAuthorizationOnly? ==>
            Step(s, a).client.handleAuthorization == s.client.handleAuthorization &&
            Step(s, a).client.handleCap == s.client.handleCap
  {
  }

  lemma GrowthKeepsSigned(s: State, s': State, cap: int, authorization: nat)
    requires HandleSigned(s, cap, authorization) && WorldGrows(s.world, s'.world) && s'.client.sdk == s.client.sdk
    requires s'.client.handleAuthorization == s.client.handleAuthorization && s'.client.handleCap == s.client.handleCap
    ensures HandleSigned(s', cap, authorization)
  {
    var c, w := s.client, s.world;
    if !(c.handleAuthorization == authorization && c.handleCap == cap) {
      var k :| k in w.revisions && w.revisions[k].answer.requestId in w.applied &&
        w.revisions[k].answer.authorization.Some? &&
        w.revisions[k].answer.authorization.value.id == c.handleAuthorization &&
        (if c.sdk.Rust? then c.handleCap <= w.revisions[k].answer.authorization.value.cap
         else c.handleCap == w.revisions[k].answer.authorization.value.cap);
      assert s'.world.revisions[k] == w.revisions[k];
    }
  }

  /** What a handler records was answered under the pending key and credited. */
  lemma RecordsSigned(s: State, t: TaskId, a: Action, start: int, authorization: nat)
    requires Inv(s, start) && HandleSigned(s, start, authorization) && t in s.tasks && s.tasks[t].Accepted?
    requires a == Record(t) || a == RecordAuthorizationOnly(t)
    ensures HandleSigned(Step(s, a), start, authorization)
  {
    assert TaskFits(s, s.tasks[t]);
    var k, s' := s.client.pendingKey.value, Step(s, a);
    assert Committed(s) && s.world.revisions[k].answer == s.tasks[t].refill;
    assert k in s'.world.revisions && s'.world.revisions[k] == s.world.revisions[k];
  }

  lemma StepKeepsSigned(s: State, a: Action, start: int, authorization: nat)
    requires Inv(s, start) && HandleSigned(s, start, authorization)
    ensures HandleSigned(Step(s, a), start, authorization)
  {
    StepGrows(s, a);
    if (a.Record? || a.RecordAuthorizationOnly?) && a.t in s.tasks && s.tasks[a.t].Accepted? {
      RecordsSigned(s, a.t, a, start, authorization);
    } else {
      OnlyRecordsMoveHandle(s, a);
      GrowthKeepsSigned(s, Step(s, a), start, authorization);
    }
  }

  /** In every serialized run the handle holds an authorization that LOC signed and the broker credited, for the
      handle's own cap, or in Rust for that cap or more. */
  lemma {:induction false} HandleIsAuthorized(sdk: Sdk, cap: int, authorization: nat, actions: seq<Action>)
    requires Serialized(Init(sdk, cap, authorization), actions)
    ensures HandleSigned(After(Init(sdk, cap, authorization), actions), cap, authorization)
  {
    if actions != [] {
      var before := actions[..|actions| - 1];
      HandleIsAuthorized(sdk, cap, authorization, before);
      SerializedKeepsInv(sdk, cap, authorization, before);
      StepKeepsSigned(After(Init(sdk, cap, authorization), before), actions[|actions| - 1], cap, authorization);
    }
  }

  /** LOC has committed as many revisions as refills have finished, or one more. */
  lemma OneOutstandingRevision(sdk: Sdk, cap: int, authorization: nat, actions: seq<Action>)
    requires Serialized(Init(sdk, cap, authorization), actions)
    ensures var s := After(Init(sdk, cap, authorization), actions);
            && s.refills <= |s.world.revisions| <= s.refills + 1
            && (s.client.pendingKey.None? ==> |s.world.revisions| == s.refills)
  {
    SerializedKeepsInv(sdk, cap, authorization, actions);
  }

  /** No refill finishes from place `i` up to place `j`. */
  predicate Quiet(log: seq<Note>, i: nat, j: nat)
    requires i <= j <= |log|
  {
    forall m :: i <= m < j ==> !log[m].Refilled?
  }

  lemma {:induction false} OpenSince(log: seq<Note>, start: int, i: nat)
    requires InTurn(log, start) && i < |log| && Quiet(log, i, |log|)
    ensures log[i].Asked? ==> OpenKey(log) == Some(log[i].key)
    ensures log[i].ToppedUp? ==> OpenRefill(log) == Some(log[i].refill)
  {
    var before := log[..|log| - 1];
    if i < |log| - 1 {
      assert Quiet(before, i, |before|);
      OpenSince(before, start, i);
    }
  }

  lemma {:induction false} PrefixInTurn(log: seq<Note>, start: int, n: nat)
    requires InTurn(log, start) && n <= |log|
    ensures InTurn(log[..n], start)
  {
    if n < |log| {
      PrefixInTurn(log[..|log| - 1], start, n);
      assert log[..|log| - 1][..n] == log[..n];
    } else {
      assert log[..n] == log;
    }
  }

  lemma {:induction false} LastCapBounds(log: seq<Note>, start: int, i: nat)
    requires InTurn(log, start)
    ensures start <= LastCap(log, start)
    ensures i < |log| && log[i].Refilled? ==> start < log[i].cap <= LastCap(log, start)
  {
    if log != [] { LastCapBounds(log[..|log| - 1], start, i); }
  }

  /** Between two finished refills all requests to LOC carry one key and all top-ups one authorization and
      request id; each finished refill leaves a higher cap than the one before. */
  lemma OneRefillAtATime(sdk: Sdk, cap: int, authorization: nat, actions: seq<Action>, i: nat, j: nat)
    requires Serialized(Init(sdk, cap, authorization), actions)
    requires i < j < |After(Init(sdk, cap, authorization), actions).log|
    ensures var log := After(Init(sdk, cap, authorization), actions).log;
            && (Quiet(log, i, j) && log[i].Asked? && log[j].Asked? ==> log[i].key == log[j].key)
            && (Quiet(log, i, j) && log[i].ToppedUp? && log[j].ToppedUp? ==> log[i].refill == log[j].refill)
            && (log[i].Refilled? && log[j].Refilled? ==> cap < log[i].cap < log[j].cap)
  {
    SerializedKeepsInv(sdk, cap, authorization, actions);
    InTurnMeans(After(Init(sdk, cap, authorization), actions).log, cap, i, j);
  }

  lemma InTurnMeans(log: seq<Note>, start: int, i: nat, j: nat)
    requires InTurn(log, start) && i < j < |log|
    ensures Quiet(log, i, j) && log[i].Asked? && log[j].Asked? ==> log[i].key == log[j].key
    ensures Quiet(log, i, j) && log[i].ToppedUp? && log[j].ToppedUp? ==> log[i].refill == log[j].refill
    ensures log[i].Refilled? && log[j].Refilled? ==> start < log[i].cap < log[j].cap
  {
    var upTo, before := log[..j + 1], log[..j];
    PrefixInTurn(log, start, j + 1);
    assert upTo[..|upTo| - 1] == before && upTo[j] == log[j];
    assert InTurn(before, start);
    LastCapBounds(before, start, i);
    if Quiet(log, i, j) {
      assert Quiet(before, i, |before|);
      OpenSince(before, start, i);
    }
  }
}
