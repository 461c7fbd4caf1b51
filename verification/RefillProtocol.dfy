/** How the session runners raise a session's spending cap: the SDK's balance handlers, the clearinghouse
    (LOC) and the broker, over a network that may lose, delay and repeat requests. */
module RefillProtocol {
  import opened Results

  type Key = nat      // an Idempotency-Key
  type TaskId = nat   // one balance handler at work

  /** The parts of a balance event that the handlers look at. */
  datatype Balance = Balance(status: string, claimedUnits: int, willRefuseNextRefill: bool)

  /** The part of a revision request that may differ between retries. */
  datatype Body = Body(observedUnits: int, maxTotalUnits: int)

  /** A spend authorization is opaque to the SDK; the broker reads the cap that LOC signed into it. */
  datatype Authorization = Authorization(id: nat, cap: int)

  /** LOC's answer. The top-up is sent only when the accounting mode and the authorization are usable. */
  datatype Refill = Refill(requestId: nat, wholesale: bool, authorization: Option<Authorization>)

  predicate Usable(r: Refill) { r.wholesale && r.authorization.Some? }

  /** LOC keeps each key with the body it was used for and the answer it gave. */
  datatype Entry = Entry(body: Body, answer: Refill)

  /** Where a handler is. The comments name what it does next. */
  datatype At =
    | Consulting(cap: int)                        // asks the application for a higher cap
    | Approved(body: Body)                        // enters refill
    | Asking(key: Key, body: Body)                // waits for LOC
    | Holding(refill: Refill, cap: int)           // posts the top-up
    | Posting(refill: Refill, cap: int)           // waits for the broker
    | Accepted(refill: Refill, cap: int)          // updates the handle
    | Updated(cap: int)                           // clears what is pending

  datatype Note = Asked(key: Key, body: Body) | ToppedUp(refill: Refill) | Refilled(cap: int)

  datatype Client = Client(
    sdk: Sdk, handleCap: int, handleAuthorization: nat,
    pendingKey: Option<Key>, pendingRefill: Option<Refill>, pendingCap: Option<int>, pendingProof: bool)

  datatype World = World(
    nextKey: Key, revisionRequests: set<(Key, Body)>, topupRequests: set<Refill>,
    locCap: int, revisions: map<Key, Entry>, brokerCap: int, applied: set<nat>)

  /** `settledCap` is the cap the last finished refill left; `lostCap` and `lostProof` record that an SDK
      found a stored refill without its cap, or an accepted one without its caller proof. */
  datatype State = State(
    client: Client, world: World, tasks: map<TaskId, At>,
    log: seq<Note>, settledCap: int, refills: nat, lostCap: bool, lostProof: bool)

  function Init(sdk: Sdk, cap: int, authorization: nat): State {
    State(Client(sdk, cap, authorization, None, None, None, false),
          World(0, {}, {}, cap, map[], cap, {}), map[], [], cap, 0, false, false)
  }

  datatype Action =
    | Start(t: TaskId, observed: int)
    | Approve(t: TaskId, body: Body)
    | Enter(t: TaskId)
    | LocCommits(key: Key, body: Body, answer: Refill)
    | AskAnswered(t: TaskId)
    | AskEmpty(t: TaskId)
    | Post(t: TaskId)
    | BrokerCommits(refill: Refill)
    | PostAccepted(t: TaskId)
    | Record(t: TaskId)
    | RecordAuthorizationOnly(t: TaskId)
    | Finish(t: TaskId)
    | Fail(t: TaskId)

  // ---- The client's own steps ----

  predicate StopsWithoutRefill(c: Client) { c.sdk.TypeScript? && c.pendingRefill.Some? }

  /** TypeScript takes up a stored refill without asking the application again. */
  function DoStart(s: State, t: TaskId, observed: int): State {
    var c := s.client;
    if StopsWithoutRefill(c) then
      match c.pendingCap
      case None => s.(lostCap := true)
      case Some(cap) => s.(tasks := s.tasks[t := Approved(Body(observed, cap))])
    else s.(tasks := s.tasks[t := Consulting(c.handleCap)])
  }

  /** Rust compares with the cap it read before asking, the others with the cap now. */
  function DoApprove(s: State, t: TaskId, body: Body, capRead: int): State {
    if body.maxTotalUnits > (if s.client.sdk.Rust? then capRead else s.client.handleCap)
    then s.(tasks := s.tasks[t := Approved(body)])
    else s.(tasks := s.tasks - {t})
  }

  /** Takes the pending key, or a new one, and the stored refill if there is one. */
  function DoEnter(s: State, t: TaskId, body: Body): State {
    var c, w := s.client, s.world;
    var key := if c.pendingKey.Some? then c.pendingKey.value else w.nextKey;
    var c' := c.(pendingKey := Some(key));
    var nextKey := if c.pendingKey.Some? then w.nextKey else w.nextKey + 1;
    match c.pendingRefill
    case None =>
      s.(client := c', tasks := s.tasks[t := Asking(key, body)],
         world := w.(nextKey := nextKey, revisionRequests := w.revisionRequests + {(key, body)}),
         log := s.log + [Asked(key, body)])
    case Some(refill) =>
      var s' := s.(client := c', world := w.(nextKey := nextKey));
      if c.sdk.TypeScript? then s'.(tasks := s.tasks[t := Holding(refill, body.maxTotalUnits)])
      else
        match c.pendingCap
        case None => s'.(lostCap := true, tasks := s.tasks - {t})
        case Some(cap) => s'.(tasks := s.tasks[t := Holding(refill, cap)])
  }

  function DoAskAnswered(s: State, t: TaskId, body: Body, answer: Refill): State {
    s.(client := s.client.(pendingRefill := Some(answer), pendingCap := Some(body.maxTotalUnits)),
       tasks := s.tasks[t := Holding(answer, body.maxTotalUnits)])
  }

  /** An accepted request without a body: Go and TypeScript store that there is no refill, then fail. */
  function DoAskEmpty(s: State, t: TaskId, body: Body): State {
    s.(client := s.client.(pendingRefill := None, pendingCap := Some(body.maxTotalUnits)),
       tasks := s.tasks - {t})
  }

  function DoPost(s: State, t: TaskId, refill: Refill, cap: int): State {
    if !Usable(refill) then s.(tasks := s.tasks - {t})
    else s.(client := s.client.(pendingProof := true), tasks := s.tasks[t := Posting(refill, cap)],
            world := s.world.(topupRequests := s.world.topupRequests + {refill}),
            log := s.log + [ToppedUp(refill)])
  }

  /** TypeScript uses the proof kept from the post; the others have their own. */
  function DoRecord(s: State, t: TaskId, refill: Refill, cap: int): State {
    if refill.authorization.None? then s.(tasks := s.tasks - {t})
    else if s.client.sdk.TypeScript? && !s.client.pendingProof then s.(lostProof := true, tasks := s.tasks - {t})
    else s.(client := s.client.(handleAuthorization := refill.authorization.value.id, handleCap := cap),
            tasks := s.tasks[t := Updated(cap)])
  }

  function DoFinish(s: State, t: TaskId, cap: int): State {
    s.(client := s.client.(pendingKey := None, pendingRefill := None, pendingCap := None, pendingProof := false),
       tasks := s.tasks - {t}, log := s.log + [Refilled(cap)], settledCap := cap, refills := s.refills + 1)
  }

  // ---- LOC and the broker ----

  /** A new key is committed once; its answer carries a request id of its own and, if it carries an
      authorization, one for the cap asked for. A key that is taken is never committed again. */
  predicate MayCommit(w: World, key: Key, body: Body, answer: Refill) {
    && (key, body) in w.revisionRequests && key !in w.revisions
    && (forall k :: k in w.revisions ==> w.revisions[k].answer.requestId != answer.requestId)
    && (answer.authorization.Some? ==> answer.authorization.value.cap == body.maxTotalUnits)
  }

  function DoLocCommits(w: World, key: Key, body: Body, answer: Refill): World {
    w.(locCap := body.maxTotalUnits, revisions := w.revisions[key := Entry(body, answer)])
  }

  predicate MayCredit(w: World, r: Refill) {
    r in w.topupRequests && r.requestId !in w.applied && r.authorization.Some?
  }

  function DoBrokerCommits(w: World, r: Refill): World
    requires r.authorization.Some?
  {
    w.(brokerCap := r.authorization.value.cap, applied := w.applied + {r.requestId})
  }

  // ---- One step; an action that cannot happen leaves the state as it is ----

  function Step(s: State, a: Action): State {
    match a
    case Start(t, observed) => if t in s.tasks then s else DoStart(s, t, observed)
    case Approve(t, body) =>
      if t in s.tasks && s.tasks[t].Consulting? then DoApprove(s, t, body, s.tasks[t].cap) else s
    case Enter(t) =>
      if t in s.tasks && s.tasks[t].Approved? then DoEnter(s, t, s.tasks[t].body) else s
    case LocCommits(key, body, answer) =>
      if MayCommit(s.world, key, body, answer) then s.(world := DoLocCommits(s.world, key, body, answer)) else s
    case AskAnswered(t) =>
      if t in s.tasks && s.tasks[t].Asking? then
        var (key, body) := (s.tasks[t].key, s.tasks[t].body);
        if key in s.world.revisions && s.world.revisions[key].body == body
        then DoAskAnswered(s, t, body, s.world.revisions[key].answer) else s
      else s
    case AskEmpty(t) =>
      if t in s.tasks && s.tasks[t].Asking? && !s.client.sdk.Rust? then DoAskEmpty(s, t, s.tasks[t].body) else s
    case Post(t) =>
      if t in s.tasks && s.tasks[t].Holding? then DoPost(s, t, s.tasks[t].refill, s.tasks[t].cap) else s
    case BrokerCommits(r) =>
      if MayCredit(s.world, r) then s.(world := DoBrokerCommits(s.world, r)) else s
    case PostAccepted(t) =>
      if t in s.tasks && s.tasks[t].Posting? && s.tasks[t].refill.requestId in s.world.applied
      then s.(tasks := s.tasks[t := Accepted(s.tasks[t].refill, s.tasks[t].cap)]) else s
    case Record(t) =>
      if t in s.tasks && s.tasks[t].Accepted? then DoRecord(s, t, s.tasks[t].refill, s.tasks[t].cap) else s
    case RecordAuthorizationOnly(t) =>   // Rust, when the proof cannot be made a second time
      if t in s.tasks && s.tasks[t].Accepted? && s.client.sdk.Rust? && s.tasks[t].refill.authorization.Some?
      then s.(client := s.client.(handleAuthorization := s.tasks[t].refill.authorization.value.id),
              tasks := s.tasks - {t})
      else s
    case Finish(t) =>
      if t in s.tasks && s.tasks[t].Updated? then DoFinish(s, t, s.tasks[t].cap) else s
    case Fail(t) =>
      if t in s.tasks && MayFail(s.client.sdk, s.tasks[t]) then s.(tasks := s.tasks - {t}) else s
  }

  /** A handler gives up when the application declines, or a reply is lost, refused or unreadable. Once the
      top-up is accepted, TypeScript still can before it updates the handle, Rust and TypeScript after. */
  predicate MayFail(sdk: Sdk, at: At) {
    match at
    case Accepted(_, _) => sdk.TypeScript?
    case Updated(_) => !sdk.Go?
    case _ => true
  }

  function After(s: State, actions: seq<Action>): State {
    if actions == [] then s else Step(After(s, actions[..|actions| - 1]), actions[|actions| - 1])
  }

  /** One handler at a time: none starts while another is at work. */
  predicate Serialized(s: State, actions: seq<Action>) {
    actions == [] ||
    var last := |actions| - 1;
    Serialized(s, actions[..last]) && (actions[last].Start? ==> After(s, actions[..last]).tasks == map[])
  }

  lemma AfterOneMore(s: State, actions: seq<Action>, a: Action)
    ensures After(s, actions + [a]) == Step(After(s, actions), a)
  {
    assert (actions + [a])[..|actions|] == actions;
  }
}
