/** A session's settlements from first to last, each checked against what the ones before it left on file. */
module SettlementRuns {
  import opened Results
  import opened Settlement

  /** The two columns the gateway keeps between settlements of a session. */
  datatype Binding = Binding(brokerSessionId: Option<string>, lastSettlementSeq: int)

  /** One settlement offered: everything but the binding may differ from one to the next. */
  datatype Offer = Offer(envelope: Envelope, keys: seq<Delegation>, base: SessionExpectation)

  type Verifier = (Binding, Offer) -> Result<VerifiedSession>

  /** Verification with the binding threaded into the expectation. */
  function Threaded(lib: Library): Verifier {
    (b: Binding, o: Offer) =>
      VerifySession(lib, o.envelope, o.keys,
                    o.base.(brokerSessionId := b.brokerSessionId, lastSettlementSeq := b.lastSettlementSeq))
  }

  /** The binding after the first `n` offers. */
  function After(check: Verifier, start: Binding, offers: seq<Offer>, n: nat): Binding
    requires n <= |offers|
  {
    if n == 0 then start
    else
      var b := After(check, start, offers, n - 1);
      match check(b, offers[n - 1])
      case Err(_) => b
      case Ok(v) => Binding(Some(v.brokerSessionId), v.settlementSeq)
  }

  function Reply(check: Verifier, start: Binding, offers: seq<Offer>, i: nat): Result<VerifiedSession>
    requires i < |offers|
  {
    check(After(check, start, offers, i), offers[i])
  }

  /** On file is what the last accepted settlement said, or what was there before any: nothing else moves it. */
  lemma {:induction false} BindingIsLastAccepted(check: Verifier, start: Binding, offers: seq<Offer>, n: nat)
    returns (last: Option<nat>)
    requires n <= |offers|
    ensures last.None? ==>
            After(check, start, offers, n) == start && forall i :: 0 <= i < n ==> Reply(check, start, offers, i).Err?
    ensures last.Some? ==> last.value < n && Reply(check, start, offers, last.value).Ok?
    ensures last.Some? ==> forall i :: last.value < i < n ==> Reply(check, start, offers, i).Err?
    ensures last.Some? ==>
            var v := Reply(check, start, offers, last.value).value;
            After(check, start, offers, n) == Binding(Some(v.brokerSessionId), v.settlementSeq)
  {
    last := None;
    if n > 0 {
      last := if Reply(check, start, offers, n - 1).Ok? then Some(n - 1) else None;
      if last.None? { last := BindingIsLastAccepted(check, start, offers, n - 1); }
    }
  }

  /** The sequence number an envelope carries. */
  function SignedSeq(lib: Library, e: Envelope): int {
    if e.payload.Some? && lib.parseRecord(e.payload.value).Some?
    then lib.parseRecord(e.payload.value).value.settlementSeq else 0
  }

  /** What a verifier has to do with the binding it is given. */
  ghost predicate RespectsBinding(lib: Library, check: Verifier) {
    forall b, o :: check(b, o).Ok? ==>
      var v := check(b, o).value;
      && b.lastSettlementSeq < v.settlementSeq == SignedSeq(lib, o.envelope)
      && v.brokerSessionId != "" && (b.brokerSessionId.Some? ==> v.brokerSessionId == b.brokerSessionId.value)
  }

  lemma ThreadedRespectsBinding(lib: Library)
    ensures RespectsBinding(lib, Threaded(lib))
  {
  }

  lemma {:induction false} BindingNeverGoesBack(
    lib: Library, check: Verifier, start: Binding, offers: seq<Offer>, i: nat, j: nat)
    requires RespectsBinding(lib, check) && i <= j <= |offers|
    ensures var b, b' := After(check, start, offers, i), After(check, start, offers, j);
            && b.lastSettlementSeq <= b'.lastSettlementSeq
            && (b.brokerSessionId.Some? ==> b'.brokerSessionId == b.brokerSessionId)
    decreases j - i
  {
    if i < j { BindingNeverGoesBack(lib, check, start, offers, i, j - 1); }
  }

  lemma RunsDoNotReplay(lib: Library, check: Verifier, start: Binding, offers: seq<Offer>, i: nat, j: nat)
    requires RespectsBinding(lib, check) && i < j < |offers|
    requires Reply(check, start, offers, i).Ok? && Reply(check, start, offers, j).Ok?
    ensures start.lastSettlementSeq < Reply(check, start, offers, i).value.settlementSeq
            < Reply(check, start, offers, j).value.settlementSeq
    ensures offers[i].envelope != offers[j].envelope
  {
    BindingNeverGoesBack(lib, check, start, offers, 0, i);
    BindingNeverGoesBack(lib, check, start, offers, i + 1, j);
  }

  lemma RunsPinTheSession(lib: Library, check: Verifier, start: Binding, offers: seq<Offer>, i: nat, j: nat)
    requires RespectsBinding(lib, check) && i <= j < |offers|
    requires After(check, start, offers, i).brokerSessionId.Some? && Reply(check, start, offers, j).Ok?
    ensures Some(Reply(check, start, offers, j).value.brokerSessionId) == After(check, start, offers, i).brokerSessionId
  {
    BindingNeverGoesBack(lib, check, start, offers, i, j);
  }

  /** Accepted sequence numbers strictly increase, and no envelope is accepted twice. */
  lemma NoReplay(lib: Library, start: Binding, offers: seq<Offer>, i: nat, j: nat)
    requires i < j < |offers|
    requires Reply(Threaded(lib), start, offers, i).Ok? && Reply(Threaded(lib), start, offers, j).Ok?
    ensures start.lastSettlementSeq < Reply(Threaded(lib), start, offers, i).value.settlementSeq
            < Reply(Threaded(lib), start, offers, j).value.settlementSeq
    ensures offers[i].envelope != offers[j].envelope
  {
    ThreadedRespectsBinding(lib);
    RunsDoNotReplay(lib, Threaded(lib), start, offers, i, j);
  }

  /** Once a broker session id is on file, every later settlement accepted is for that id, and it stays on file. */
  lemma BrokerSessionPinned(lib: Library, start: Binding, offers: seq<Offer>, i: nat, j: nat)
    requires i <= j < |offers| && After(Threaded(lib), start, offers, i).brokerSessionId.Some?
    ensures Reply(Threaded(lib), start, offers, j).Ok? ==>
            Some(Reply(Threaded(lib), start, offers, j).value.brokerSessionId)
            == After(Threaded(lib), start, offers, i).brokerSessionId
    ensures After(Threaded(lib), start, offers, j).brokerSessionId ==
            After(Threaded(lib), start, offers, i).brokerSessionId
  {
    ThreadedRespectsBinding(lib);
    BindingNeverGoesBack(lib, Threaded(lib), start, offers, i, j);
    if Reply(Threaded(lib), start, offers, j).Ok? {
      RunsPinTheSession(lib, Threaded(lib), start, offers, i, j);
    }
  }
}
