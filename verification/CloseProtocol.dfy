/** Closing a session: any number of callers of Close and WaitClosed, in any interleaving. */
module CloseProtocol {
  import opened Results

  type CallerId = nat
  type Settlement = nat

  /** What is stored as the final settlement; in Go it may be nil. */
  type Answer = Option<Settlement>

  /** The outcome that Rust reads from fields that are not there. */
  const DEFAULT_OUTCOME: Settlement := 0

  /** What an SDK makes of a body that LOC answers with, or of none: Go keeps a nil settlement, Rust reads defaults,
      TypeScript fails. */
  function Received(sdk: Sdk, body: Option<Settlement>): Option<Answer> {
    match sdk
    case Go => Some(body)
    case Rust => Some(Some(if body.Some? then body.value else DEFAULT_OUTCOME))
    case TypeScript => if body.Some? then Some(body) else None
  }

  /** An empty answer closes the session in Go, with nothing to report, and in Rust, with a default; not in
      TypeScript. Any other is stored as it is. */
  lemma EmptyAnswer(n: Settlement)
    ensures Received(Go, None) == Some(None) && Received(Rust, None) == Some(Some(0))
    ensures Received(TypeScript, None) == None
    ensures forall sdk: Sdk :: Received(sdk, Some(n)) == Some(Some(n))
  {
  }

  datatype At =
    | Waiting                     // for the caller that is closing
    | Ending                      // about to ask the broker to end the session
    | Finalizing                  // about to ask LOC to close it
    | Storing(answer: Answer)
    | Done(answer: Answer)
    | Failed
    | AwaitingClosed              // in WaitClosed
    | SawClosed

  /** `ends` and `finalizations` count requests made; `stored` is what the closing caller stored. */
  datatype State = State(
    sdk: Sdk, finalSettle: Answer, closeStarted: bool, channelClosed: bool, panicked: bool,
    ends: nat, finalizations: nat, stored: Option<Answer>, callers: map<CallerId, At>)

  function Init(sdk: Sdk): State { State(sdk, None, false, false, false, 0, 0, None, map[]) }

  datatype Action =
    | Call(id: CallerId)
    | StartFails(id: CallerId)
    | End(id: CallerId, ok: bool)
    | Finalize(id: CallerId, reply: Option<Option<Settlement>>)   // a failure, or an answer with a body or without
    | Store(id: CallerId)
    | Wake(id: CallerId)
    | GiveUp(id: CallerId)
    | Wait(id: CallerId)

  predicate Is(s: State, id: CallerId, at: At) { id in s.callers && s.callers[id] == at }

  function Put(s: State, id: CallerId, at: At): State { s.(callers := s.callers[id := at]) }

  /** The first critical section. TypeScript does not mark that a close has begun. */
  function DoCall(s: State, id: CallerId): State {
    if s.finalSettle.Some? then Put(s, id, Done(s.finalSettle))
    else if s.sdk.TypeScript? then Put(s, id, Ending)
    else if s.closeStarted then Put(s, id, Waiting)
    else Put(s.(closeStarted := true), id, Ending)
  }

  /** Storing wakes the waiting; closing Go's channel twice would panic. */
  function DoStore(s: State, id: CallerId, answer: Answer): State {
    if s.sdk.Go? && s.channelClosed then s.(panicked := true)
    else Put(s.(finalSettle := answer, stored := Some(answer), channelClosed := true), id, Done(answer))
  }

  /** Go's waiters wake by the channel, Rust's by seeing a settlement. */
  predicate CanWake(s: State) { if s.sdk.Rust? then s.finalSettle.Some? else s.channelClosed }

  function Step(s: State, a: Action): State {
    match a
    case Call(id) => if id in s.callers then s else DoCall(s, id)
    case StartFails(id) => if Is(s, id, Ending) then Put(s, id, Failed) else s
    case End(id, ok) =>
      if Is(s, id, Ending) then Put(s.(ends := s.ends + 1), id, if ok then Finalizing else Failed) else s
    case Finalize(id, reply) =>
      if !Is(s, id, Finalizing) then s
      else
        var answer := if reply.None? then None else Received(s.sdk, reply.value);
        Put(s.(finalizations := s.finalizations + 1), id, if answer.None? then Failed else Storing(answer.value))
    case Store(id) => if id in s.callers && s.callers[id].Storing? then DoStore(s, id, s.callers[id].answer) else s
    case Wake(id) =>
      if Is(s, id, Waiting) && CanWake(s) then Put(s, id, Done(s.finalSettle))
      else if Is(s, id, AwaitingClosed) && s.channelClosed then Put(s, id, SawClosed)
      else s
    case GiveUp(id) => if Is(s, id, Waiting) || Is(s, id, AwaitingClosed) then Put(s, id, Failed) else s
    case Wait(id) => if id in s.callers then s else Put(s, id, AwaitingClosed)
  }

  function After(s: State, actions: seq<Action>): State {
    if actions == [] then s else Step(After(s, actions[..|actions| - 1]), actions[|actions| - 1])
  }

  // ---- One close at most ----

  /** A caller past the guard and not finished. */
  predicate Closing(at: At) { at.Ending? || at.Finalizing? || at.Storing? }

  ghost predicate Inv(s: State) { FieldsFit(s) && OneCloser(s) && CallersFit(s) }

  predicate FieldsFit(s: State) {
    && !s.sdk.TypeScript? && !s.panicked
    && s.ends <= 1 && s.finalizations <= s.ends
    && (s.channelClosed <==> s.stored.Some?)
    && s.finalSettle == (if s.stored.Some? then s.stored.value else None)
    && (s.sdk.Rust? && s.stored.Some? ==> s.stored.value.Some?)
  }

  ghost predicate OneCloser(s: State) {
    && (!s.closeStarted ==> s.ends == 0 && s.stored.None? && forall id :: id in s.callers ==> !Closing(s.callers[id]))
    && (forall i, j :: i in s.callers && j in s.callers && Closing(s.callers[i]) && Closing(s.callers[j]) ==> i == j)
  }

  ghost predicate CallersFit(s: State) {
    forall id :: id in s.callers ==> CallerFits(s, s.callers[id])
  }

  predicate CallerFits(s: State, at: At) {
    match at
    case Ending => s.ends == 0 && s.finalizations == 0 && s.stored.None?
    case Finalizing => s.ends == 1 && s.finalizations == 0 && s.stored.None?
    case Storing(answer) => s.stored.None? && (s.sdk.Rust? ==> answer.Some?)
    case Done(answer) => s.stored == Some(answer)
    case SawClosed => s.stored.Some?
    case _ => true
  }

  lemma StepKeepsOneCloser(s: State, a: Action)
    requires Inv(s)
    ensures FieldsFit(Step(s, a)) && OneCloser(Step(s, a))
  {
  }

  lemma StepKeepsCallers(s: State, a: Action)
    requires Inv(s)
    ensures CallersFit(Step(s, a))
  {
  }

  lemma StepKeepsInv(s: State, a: Action)
    requires Inv(s)
    ensures Inv(Step(s, a))
  {
    StepKeepsOneCloser(s, a);
    StepKeepsCallers(s, a);
  }

  lemma {:induction false} EveryInterleaving(sdk: Sdk, actions: seq<Action>)
    requires !sdk.TypeScript?
    ensures Inv(After(Init(sdk), actions))
  {
    if actions != [] {
      EveryInterleaving(sdk, actions[..|actions| - 1]);
      StepKeepsInv(After(Init(sdk), actions[..|actions| - 1]), actions[|actions| - 1]);
    }
  }

  /** At most one caller ends the broker session and finalizes at LOC, and the channel is closed at most once.
      Every caller that succeeds has the settlement that was stored, and no one sees the close before it is. */
  lemma SingleClose(sdk: Sdk, actions: seq<Action>)
    requires !sdk.TypeScript?
    ensures var s := After(Init(sdk), actions);
            && s.ends <= 1 && s.finalizations <= 1 && !s.panicked
            && (forall id :: id in s.callers && s.callers[id].Done? ==> s.stored == Some(s.callers[id].answer))
            && (forall id :: id in s.callers && s.callers[id].SawClosed? ==> s.stored.Some?)
  {
    EveryInterleaving(sdk, actions);
  }

  // ---- A close that fails is not tried again ----

  /** A close was begun, and the caller that began it has failed. */
  ghost predicate GaveOut(s: State) {
    s.closeStarted && s.stored.None? && forall id :: id in s.callers ==> !Closing(s.callers[id])
  }

  lemma GaveOutStays(s: State, a: Action)
    requires Inv(s) && GaveOut(s)
    ensures GaveOut(Step(s, a)) && Step(s, a).ends == s.ends
  {
  }

  lemma {:induction false} AfterAppend(s: State, actions: seq<Action>, more: seq<Action>)
    ensures After(s, actions + more) == After(After(s, actions), more)
  {
    if more == [] {
      assert actions + more == actions;
    } else {
      var last := |more| - 1;
      AfterAppend(s, actions, more[..last]);
      assert (actions + more)[..|actions + more| - 1] == actions + more[..last];
    }
  }

  lemma {:induction false} GaveOutFrom(s: State, more: seq<Action>)
    requires Inv(s) && GaveOut(s)
    ensures Inv(After(s, more)) && GaveOut(After(s, more))
  {
    if more != [] {
      GaveOutFrom(s, more[..|more| - 1]);
      StepKeepsInv(After(s, more[..|more| - 1]), more[|more| - 1]);
      GaveOutStays(After(s, more[..|more| - 1]), more[|more| - 1]);
    }
  }

  /** Once the caller that was closing fails, no caller of Close, then or later, ever succeeds. */
  lemma FailedCloseIsFinal(sdk: Sdk, actions: seq<Action>, more: seq<Action>, id: CallerId)
    requires !sdk.TypeScript? && GaveOut(After(Init(sdk), actions))
    ensures var s := After(Init(sdk), actions + more);
            s.stored.None? && !(id in s.callers && (s.callers[id].Done? || s.callers[id].SawClosed?))
  {
    EveryInterleaving(sdk, actions);
    AfterAppend(Init(sdk), actions, more);
    GaveOutFrom(After(Init(sdk), actions), more);
  }
}
