/** How often the broker session can be ended, and when a close can still succeed: exactly. */
module CloseOutcomes {
  import opened Results
  import opened CloseProtocol

  // ---- How often the broker session is ended ----

  /** A caller finds no settlement, and in Go and Rust no close begun, and goes on to end the session. */
  predicate PassesGuard(s: State, a: Action) {
    a.Call? && a.id !in s.callers && s.finalSettle.None? && (s.sdk.TypeScript? || !s.closeStarted)
  }

  /** How many callers did so. */
  function Passed(s: State, actions: seq<Action>): nat {
    if actions == [] then 0
    else
      var before, last := actions[..|actions| - 1], actions[|actions| - 1];
      Passed(s, before) + if PassesGuard(After(s, before), last) then 1 else 0
  }

  /** The callers that are about to end it. */
  function Enders(s: State): set<CallerId> { set id | id in s.callers && s.callers[id].Ending? }

  lemma CallCountsEnds(s: State, id: CallerId)
    ensures |Enders(Step(s, Call(id)))| <= |Enders(s)| + if PassesGuard(s, Call(id)) then 1 else 0
  {
    var t := Step(s, Call(id));
    if PassesGuard(s, Call(id)) {
      assert t.callers == s.callers[id := Ending];
      SmallerSet(Enders(t), Enders(s) + {id});
    } else {
      SmallerSet(Enders(t), Enders(s));
    }
  }

  lemma EndCountsEnds(s: State, id: CallerId, ok: bool)
    ensures var t := Step(s, End(id, ok)); t.ends + |Enders(t)| <= s.ends + |Enders(s)|
  {
    var t := Step(s, End(id, ok));
    if Is(s, id, Ending) {
      assert Enders(t) == Enders(s) - {id} && id in Enders(s);
    }
  }

  lemma OtherStepsEndNothing(s: State, a: Action)
    requires !a.Call? && !a.End?
    ensures Step(s, a).ends == s.ends && Enders(Step(s, a)) <= Enders(s)
  {
  }

  /** Only passing the guard makes an ender, and each ends the session once. */
  lemma StepCountsEnds(s: State, a: Action)
    ensures Step(s, a).ends + |Enders(Step(s, a))| <= s.ends + |Enders(s)| + if PassesGuard(s, a) then 1 else 0
  {
    match a
    case Call(id) => CallCountsEnds(s, id);
    case End(id, ok) => EndCountsEnds(s, id, ok);
    case _ =>
      OtherStepsEndNothing(s, a);
      SmallerSet(Enders(Step(s, a)), Enders(s));
  }

  lemma {:induction false} SmallerSet(a: set<CallerId>, b: set<CallerId>)
    requires a <= b
    ensures |a| <= |b|
  {
    if i :| i in a {
      SmallerSet(a - {i}, b - {i});
    }
  }

  lemma StepKeepsSdk(s: State, a: Action)
    ensures Step(s, a).sdk == s.sdk && (s.sdk.TypeScript? ==> Step(s, a).closeStarted == s.closeStarted)
  {
  }

  /** However callers interleave, the session is ended no more often than callers passed the guard. */
  lemma {:induction false} EndsAtMostPassed(sdk: Sdk, actions: seq<Action>)
    ensures var s := After(Init(sdk), actions);
            s.sdk == sdk && s.ends + |Enders(s)| <= Passed(Init(sdk), actions)
  {
    if actions != [] {
      EndsAtMostPassed(sdk, actions[..|actions| - 1]);
      StepCountsEnds(After(Init(sdk), actions[..|actions| - 1]), actions[|actions| - 1]);
      StepKeepsSdk(After(Init(sdk), actions[..|actions| - 1]), actions[|actions| - 1]);
    }
  }

  lemma OneMore(sdk: Sdk, actions: seq<Action>, a: Action)
    ensures var s := After(Init(sdk), actions);
            && After(Init(sdk), actions + [a]) == Step(s, a)
            && Passed(Init(sdk), actions + [a]) == Passed(Init(sdk), actions) + if PassesGuard(s, a) then 1 else 0
  {
    assert (actions + [a])[..|actions|] == actions;
  }

  lemma OneEnds(s: State, id: CallerId)
    requires id !in s.callers && s.finalSettle.None? && (s.sdk.TypeScript? || !s.closeStarted)
    ensures var t := Step(Step(s, Call(id)), End(id, false));
            && t.sdk == s.sdk && t.ends == s.ends + 1 && t.finalSettle.None?
            && t.callers.Keys == s.callers.Keys + {id}
    ensures PassesGuard(s, Call(id)) && !PassesGuard(Step(s, Call(id)), End(id, false))
  {
  }

  /** Callers that come one after the other and fail; TypeScript lets each of them end the session. */
  lemma {:induction false} EachEnds(sdk: Sdk, n: nat) returns (actions: seq<Action>)
    requires sdk.TypeScript? || n <= 1
    ensures var s := After(Init(sdk), actions);
            && s.sdk == sdk && s.ends == n == Passed(Init(sdk), actions)
            && s.finalSettle.None? && (n == 0 ==> !s.closeStarted) && forall id :: id in s.callers ==> id < n
  {
    actions := [];
    if n > 0 {
      var before := EachEnds(sdk, n - 1);
      actions := before + [Call(n - 1)] + [End(n - 1, false)];
      OneEnds(After(Init(sdk), before), n - 1);
      OneMore(sdk, before, Call(n - 1));
      OneMore(sdk, before + [Call(n - 1)], End(n - 1, false));
    }
  }

  /** Every run that lets at most `k` callers past the guard ends the session at most `m` times. */
  ghost predicate EndsWithin(sdk: Sdk, k: nat, m: nat) {
    forall actions: seq<Action> :: Passed(Init(sdk), actions) <= k ==> After(Init(sdk), actions).ends <= m
  }

  /** In TypeScript that is so only when no more than `m` get past; in Go and Rust, no more than one ever does. In
      particular one end is all that can happen (`m == 1`) exactly with the guard, or with one caller past it. */
  lemma EndsOnceIffGuarded(sdk: Sdk, k: nat, m: nat)
    ensures EndsWithin(sdk, k, m) <==> (if sdk.TypeScript? || k == 0 then k else 1) <= m
    ensures EndsWithin(sdk, k, 1) <==> !sdk.TypeScript? || k <= 1
  {
    EndsWithinIff(sdk, k, m);
    EndsWithinIff(sdk, k, 1);
  }

  lemma EndsWithinIff(sdk: Sdk, k: nat, m: nat)
    ensures EndsWithin(sdk, k, m) <==> (if sdk.TypeScript? || k == 0 then k else 1) <= m
  {
    var most := if sdk.TypeScript? || k == 0 then k else 1;
    if most <= m {
      forall actions: seq<Action> | Passed(Init(sdk), actions) <= k ensures After(Init(sdk), actions).ends <= m {
        EndsAtMostPassed(sdk, actions);
        if !sdk.TypeScript? { SingleClose(sdk, actions); }
      }
    } else {
      var actions := EachEnds(sdk, most);
      assert After(Init(sdk), actions).ends > m;
    }
  }

  // ---- What is stored ----

  /** LOC answered so, to a caller that had the broker end the session. */
  ghost predicate Answered(sdk: Sdk, actions: seq<Action>, answer: Answer) {
    exists a :: a in actions && a.Finalize? && a.reply.Some? && Received(sdk, a.reply.value) == Some(answer)
  }

  ghost predicate Ended(actions: seq<Action>) { exists a :: a in actions && a.End? && a.ok }

  ghost predicate StoredFits(s: State, actions: seq<Action>) {
    s.stored.Some? ==> Answered(s.sdk, actions, s.stored.value) && Ended(actions)
  }

  ghost predicate CallersAnswered(s: State, actions: seq<Action>) {
    forall id :: id in s.callers ==>
      match s.callers[id]
      case Finalizing => Ended(actions)
      case Storing(answer) => Ended(actions) && Answered(s.sdk, actions, answer)
      case _ => true
  }

  ghost predicate AnswersFit(s: State, actions: seq<Action>) { StoredFits(s, actions) && CallersAnswered(s, actions) }

  lemma AnswersFitMore(s: State, actions: seq<Action>, a: Action)
    requires AnswersFit(s, actions)
    ensures AnswersFit(s, actions + [a])
  {
    var more := actions + [a];
    assert forall b :: b in actions ==> b in more;
    forall answer | Answered(s.sdk, actions, answer) ensures Answered(s.sdk, more, answer) {
      var b :| b in actions && b.Finalize? && b.reply.Some? && Received(s.sdk, b.reply.value) == Some(answer);
      assert b in more;
    }
    if Ended(actions) {
      var b :| b in actions && b.End? && b.ok;
      assert b in more;
    }
  }

  lemma OtherStepsKeepAnswered(s: State, actions: seq<Action>, a: Action)
    requires CallersAnswered(s, actions) && a in actions && !a.Finalize?
    ensures CallersAnswered(Step(s, a), actions)
  {
    StepKeepsSdk(s, a);
  }

  lemma StepKeepsCallersAnswered(s: State, actions: seq<Action>, a: Action)
    requires CallersAnswered(s, actions) && a in actions
    ensures CallersAnswered(Step(s, a), actions)
  {
    StepKeepsSdk(s, a);
    if !a.Finalize? {
      OtherStepsKeepAnswered(s, actions, a);
    } else if a.reply.Some? && Received(s.sdk, a.reply.value).Some? {
      assert Answered(s.sdk, actions, Received(s.sdk, a.reply.value).value);
    }
  }

  lemma StepKeepsStoredAnswered(s: State, actions: seq<Action>, a: Action)
    requires AnswersFit(s, actions)
    ensures StoredFits(Step(s, a), actions)
  {
    StepKeepsSdk(s, a);
  }

  lemma StepKeepsAnswers(s: State, actions: seq<Action>, a: Action)
    requires AnswersFit(s, actions) && a in actions
    ensures AnswersFit(Step(s, a), actions)
  {
    StepKeepsStoredAnswered(s, actions, a);
    StepKeepsCallersAnswered(s, actions, a);
  }

  /** What is stored is what LOC answered, after the broker ended the session. */
  lemma {:induction false} StoredWasAnswered(sdk: Sdk, actions: seq<Action>)
    ensures var s := After(Init(sdk), actions); s.sdk == sdk && AnswersFit(s, actions)
  {
    if actions != [] {
      var before, last := actions[..|actions| - 1], actions[|actions| - 1];
      StoredWasAnswered(sdk, before);
      assert before + [last] == actions;
      AnswersFitMore(After(Init(sdk), before), before, last);
      StepKeepsAnswers(After(Init(sdk), before), actions, last);
      StepKeepsSdk(After(Init(sdk), before), last);
    }
  }

  // ---- WaitClosed ----

  /** A caller of WaitClosed returns with success exactly from when a settlement is stored, and then at any time. */
  lemma WaitClosedReturns(sdk: Sdk, actions: seq<Action>, id: CallerId)
    requires !sdk.TypeScript? && Is(After(Init(sdk), actions), id, AwaitingClosed)
    ensures var s := After(Init(sdk), actions);
            Step(s, Wake(id)).callers[id] == if s.stored.Some? then SawClosed else AwaitingClosed
  {
    EveryInterleaving(sdk, actions);
  }

  // ---- When a close can still succeed ----

  ghost predicate Succeeds(s: State) { exists id :: id in s.callers && s.callers[id].Done? }

  /** Some continuation has a caller succeed. */
  ghost predicate CanSucceed(s: State) { exists more: seq<Action> :: Succeeds(After(s, more)) }

  lemma SucceedsAlready(s: State, id: CallerId)
    requires id in s.callers && s.callers[id].Done?
    ensures CanSucceed(s)
  {
    assert After(s, []) == s;
    assert Succeeds(After(s, []));
  }

  lemma OneStepEarlier(s: State, a: Action)
    requires CanSucceed(Step(s, a))
    ensures CanSucceed(s)
  {
    var more :| Succeeds(After(Step(s, a), more));
    AfterAppend(s, [a], more);
    assert [a][..0] == [] && After(s, [a]) == Step(After(s, []), a);
    assert Succeeds(After(s, [a] + more));
  }

  lemma FromStoring(s: State, id: CallerId)
    requires id in s.callers && s.callers[id].Storing? && (s.sdk.Go? ==> !s.channelClosed)
    ensures CanSucceed(s)
  {
    SucceedsAlready(Step(s, Store(id)), id);
    OneStepEarlier(s, Store(id));
  }

  lemma FromFinalizing(s: State, id: CallerId)
    requires Is(s, id, Finalizing) && (s.sdk.Go? ==> !s.channelClosed)
    ensures CanSucceed(s)
  {
    var a := Finalize(id, Some(Some(1)));
    FromStoring(Step(s, a), id);
    OneStepEarlier(s, a);
  }

  lemma FromEnding(s: State, id: CallerId)
    requires Is(s, id, Ending) && (s.sdk.Go? ==> !s.channelClosed)
    ensures CanSucceed(s)
  {
    FromFinalizing(Step(s, End(id, true)), id);
    OneStepEarlier(s, End(id, true));
  }

  lemma {:induction false} NewCaller(ids: set<CallerId>) returns (id: CallerId)
    ensures forall i :: i in ids ==> i < id
  {
    id := 0;
    if i :| i in ids {
      var above := NewCaller(ids - {i});
      id := if above > i then above else i + 1;
      assert forall j :: j in ids ==> j == i || j in ids - {i};
    }
  }

  /** A new caller succeeds when no close was begun, or one has stored its settlement. */
  lemma FromNewCall(s: State)
    requires s.sdk.TypeScript? || Inv(s)
    requires s.sdk.TypeScript? || !s.closeStarted || s.stored.Some?
    ensures CanSucceed(s)
  {
    var id := NewCaller(s.callers.Keys);
    var t := Step(s, Call(id));
    if t.callers[id].Ending? {
      FromEnding(t, id);
    } else if t.callers[id].Waiting? {
      SucceedsAlready(Step(t, Wake(id)), id);
      OneStepEarlier(t, Wake(id));
    } else {
      SucceedsAlready(t, id);
    }
    OneStepEarlier(s, Call(id));
  }

  lemma {:induction false} TypeScriptNeverMarks(actions: seq<Action>)
    ensures var s := After(Init(TypeScript), actions); s.sdk.TypeScript? && !s.closeStarted
  {
    if actions != [] {
      TypeScriptNeverMarks(actions[..|actions| - 1]);
      StepKeepsSdk(After(Init(TypeScript), actions[..|actions| - 1]), actions[|actions| - 1]);
    }
  }

  lemma FromClosing(s: State)
    requires Inv(s) && !GaveOut(s)
    ensures CanSucceed(s)
  {
    if s.closeStarted && s.stored.None? {
      var id :| id in s.callers && Closing(s.callers[id]);
      match s.callers[id]
      case Ending => FromEnding(s, id);
      case Finalizing => FromFinalizing(s, id);
      case _ => FromStoring(s, id);
    } else {
      FromNewCall(s);
    }
  }

  /** In every run of every SDK, some caller has succeeded or still can, exactly unless a close was begun and the
      caller that began it has failed. */
  lemma CanSucceedUnlessGaveOut(sdk: Sdk, actions: seq<Action>)
    ensures CanSucceed(After(Init(sdk), actions)) <==> !GaveOut(After(Init(sdk), actions))
  {
    var s := After(Init(sdk), actions);
    if sdk.TypeScript? {
      TypeScriptNeverMarks(actions);
      FromNewCall(s);
    } else {
      EveryInterleaving(sdk, actions);
      if GaveOut(s) {
        forall more: seq<Action> ensures !Succeeds(After(s, more)) {
          GaveOutFrom(s, more);
        }
      } else {
        FromClosing(s);
      }
    }
  }
}
