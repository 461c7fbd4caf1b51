/** What verification guarantees about one settlement, about sets of them, and about a session's whole life. */
module SettlementProofs {
  import opened Results
  import opened Settlement
  import opened SettlementAmounts
  import opened Billing

  // ---- Signing keys ----

  predicate CoversInstant(d: Delegation, key: string, t: Instant) {
    d.publicKey == key && d.notBefore.At? && d.expiresAt.At? && d.notBefore.instant <= t <= d.expiresAt.instant
  }

  /** A delegation that decides nothing: of another key, or with readable bounds of which one, in its zone, shuts the
      time out before the other has to be compared. */
  predicate PassedOver(d: Delegation, key: string, t: Instant) {
    || d.publicKey != key
    || (!d.notBefore.Unreadable? && !d.expiresAt.Unreadable? && d.notBefore.At? &&
        (t < d.notBefore.instant || (d.expiresAt.At? && d.expiresAt.instant < t)))
  }

  predicate UnreadableWindow(d: Delegation, key: string) {
    d.publicKey == key && (d.notBefore.Unreadable? || d.expiresAt.Unreadable?)
  }

  /** The key's window is readable, and the first bound without a time zone is one that has to be compared. */
  predicate NaiveWindow(d: Delegation, key: string, t: Instant) {
    && d.publicKey == key && !d.notBefore.Unreadable? && !d.expiresAt.Unreadable?
    && (d.notBefore.Naive? || (d.expiresAt.Naive? && d.notBefore.instant <= t))
  }

  predicate AllPassedOver(ds: seq<Delegation>, n: nat, key: string, t: Instant)
    requires n <= |ds|
  {
    forall j :: 0 <= j < n ==> PassedOver(ds[j], key, t)
  }

  /** The first delegation that is not passed over, if any, and what the scan makes of it. */
  lemma {:induction false} FirstThatDecides(key: string, t: Instant, ds: seq<Delegation>) returns (i: nat)
    ensures i <= |ds| && AllPassedOver(ds, i, key, t)
    ensures i == |ds| ==> AuthorizeKey(key, t, ds) == Fail("unauthorized_signing_key")
    ensures i < |ds| ==> !PassedOver(ds[i], key, t)
    ensures i < |ds| ==>
            AuthorizeKey(key, t, ds) == if CoversInstant(ds[i], key, t) then Pass
                                        else if NaiveWindow(ds[i], key, t) then Fail("TypeError")
                                        else Fail("invalid_delegation")
  {
    i := 0;
    if ds != [] && PassedOver(ds[0], key, t) {
      i := FirstThatDecides(key, t, ds[1..]);
      assert forall j :: 0 < j < i + 1 ==> ds[j] == ds[1..][j - 1];
      i := i + 1;
    }
  }

  /** The first delegation that decides anything decides everything, in each of the four outcomes. */
  lemma FirstVerdictDecides(key: string, t: Instant, ds: seq<Delegation>)
    ensures AuthorizeKey(key, t, ds).Pass? <==>
            exists i :: 0 <= i < |ds| && CoversInstant(ds[i], key, t) && AllPassedOver(ds, i, key, t)
    ensures AuthorizeKey(key, t, ds) == Fail("unauthorized_signing_key") <==> AllPassedOver(ds, |ds|, key, t)
    ensures AuthorizeKey(key, t, ds) == Fail("invalid_delegation") <==>
            exists i :: 0 <= i < |ds| && UnreadableWindow(ds[i], key) && AllPassedOver(ds, i, key, t)
    ensures AuthorizeKey(key, t, ds) == Fail("TypeError") <==>
            exists i :: 0 <= i < |ds| && NaiveWindow(ds[i], key, t) && AllPassedOver(ds, i, key, t)
  {
    var first := FirstThatDecides(key, t, ds);
    forall i | 0 <= i < |ds| && !PassedOver(ds[i], key, t) && AllPassedOver(ds, i, key, t) ensures i == first {
      assert first >= i;
    }
  }

  /** The scan ends in a TypeError exactly when the first delegation that decides anything has such a window. */
  lemma TypeErrorIffNaiveWindow(key: string, t: Instant, ds: seq<Delegation>)
    ensures AuthorizeKey(key, t, ds) == Fail("TypeError") <==>
            exists i :: 0 <= i < |ds| && NaiveWindow(ds[i], key, t) &&
              forall j :: 0 <= j < i ==> PassedOver(ds[j], key, t)
  {
    FirstVerdictDecides(key, t, ds);
    if i :| 0 <= i < |ds| && NaiveWindow(ds[i], key, t) && forall j :: 0 <= j < i ==> PassedOver(ds[j], key, t) {
      assert AllPassedOver(ds, i, key, t);
    }
  }

  /** What an envelope must carry to be accepted with record `r`, signed time `t` and key `key`: the key that
      signed the canonical text, the one signature scheme, and a delegation that covers the time with none
      before it that decides otherwise. */
  ghost predicate EnvelopeEvidence(lib: Library, env: Envelope, keys: seq<Delegation>,
                                   r: Record, t: Instant, key: string)
  {
    && env.payload.Some? && env.signature.Some?
    && env.signature.value.algorithm == "secp256k1" && env.signature.value.canonicalization == "jcs"
    && lib.canonicalize(env.payload.value).Ok?
    && lib.recoverKey(lib.canonicalize(env.payload.value).value, env.signature.value.value) == Ok(key)
    && lib.issuedAt(env.payload.value) == Ok(t) && lib.parseRecord(env.payload.value) == Some(r)
    && exists i :: 0 <= i < |keys| && CoversInstant(keys[i], key, t) && AllPassedOver(keys, i, key, t)
  }

  lemma EnvelopeAcceptedIff(lib: Library, env: Envelope, keys: seq<Delegation>, r: Record, t: Instant, key: string)
    ensures VerifyEnvelope(lib, env, keys) == Ok((r, t, key)) <==> EnvelopeEvidence(lib, env, keys, r, t, key)
  {
    FirstVerdictDecides(key, t, keys);
  }

  // ---- One job ----

  datatype JobClaim = JobClaim(envelope: Envelope, keys: seq<Delegation>, expected: JobExpectation)

  predicate JobAccepted(lib: Library, c: JobClaim) { VerifyJob(lib, c.envelope, c.keys, c.expected).Ok? }

  function JobRecord(lib: Library, c: JobClaim): Record
    requires JobAccepted(lib, c)
  {
    VerifyEnvelope(lib, c.envelope, c.keys).value.0
  }

  function JobBilled(lib: Library, c: JobClaim): int
    requires JobAccepted(lib, c)
  {
    VerifyJob(lib, c.envelope, c.keys, c.expected).value.billedValueWei
  }

  predicate Priced(e: JobExpectation, p: Price) { IsPrice(p) && e.amountWei == p.amount && e.perUnits == p.per }

  /** Where an accepted job lies on the curve: from zero when it has its own authorization, otherwise at
      the position the payment had reached. */
  function JobSpan(lib: Library, c: JobClaim): Span
    requires JobAccepted(lib, c)
  {
    var r := JobRecord(lib, c);
    if c.expected.authorizationId.Some? then Span(0, r.debitedUnits)
    else Span(r.paymentCumulativeUnits - r.debitedUnits, r.paymentCumulativeUnits)
  }

  /** Everything a settlement record must say about a job. */
  ghost predicate JobEvidence(r: Record, e: JobExpectation) {
    && !r.outcome.DebitFailed? && !r.outcome.Unlisted?
    && r.wholesaleAccountId == e.wholesaleAccountId != "" && r.settlementDomainId == e.settlementDomainId != ""
    && r.requestId == e.requestId && r.jobId == e.jobId && r.workId == e.workId && r.workUnitName == e.workUnit
    && r.quote == e.quote
    && r.actualUnits == r.billedUnits == r.debitedUnits == e.actualUnits <= e.maxTotalUnits
    && e.amountWei >= 0 && e.perUnits > 0
    && var p := Price(e.amountWei, e.perUnits);
       var billed := Amount(r.billedValueWei);
       match e.authorizationId
       case None =>
         && r.authorizationId == "" && r.debitedUnits <= r.paymentCumulativeUnits
         && billed == Step(Span(r.paymentCumulativeUnits - r.debitedUnits, r.paymentCumulativeUnits), p)
         && billed <= e.fundedValueWei
       case Some(id) =>
         && r.authorizationId == r.workId == id && r.paymentCumulativeUnits == 0
         && billed == Charge(r.debitedUnits, p)
         && AccountsWithin(r, e.authorizedValueWei, billed)
  }

  /** The signed ceiling is the one on file, and neither the bill with the release nor the reservation passes it. */
  ghost predicate AccountsWithin(r: Record, authorized: Option<int>, billed: int) {
    && authorized == Some(Amount(r.authorizedValueWei))
    && Amount(r.reservedValueWei) <= authorized.value
    && billed + Amount(r.releasedValueWei) <= authorized.value
  }

  lemma JobRecordIff(r: Record, t: Instant, key: string, e: JobExpectation)
    ensures VerifyJobRecord(r, t, key, e).Ok? <==> JobEvidence(r, e)
    ensures VerifyJobRecord(r, t, key, e).Ok? ==>
            VerifyJobRecord(r, t, key, e).value.billedValueWei == Amount(r.billedValueWei)
  {
    AmountsAreRead();
  }

  /** A job is accepted exactly when its envelope is and the record says everything that is required. */
  lemma JobAcceptedIff(lib: Library, c: JobClaim)
    ensures JobAccepted(lib, c) <==>
            VerifyEnvelope(lib, c.envelope, c.keys).Ok? &&
            JobEvidence(VerifyEnvelope(lib, c.envelope, c.keys).value.0, c.expected)
    ensures JobAccepted(lib, c) ==> JobBilled(lib, c) == Amount(JobRecord(lib, c).billedValueWei)
  {
    if VerifyEnvelope(lib, c.envelope, c.keys).Ok? {
      var (r, t, key) := VerifyEnvelope(lib, c.envelope, c.keys).value;
      JobRecordIff(r, t, key, c.expected);
    }
  }

  lemma JobBillIsStep(lib: Library, c: JobClaim, p: Price)
    requires JobAccepted(lib, c) && Priced(c.expected, p)
    ensures IsSpan(JobSpan(lib, c)) && JobBilled(lib, c) == Step(JobSpan(lib, c), p)
    ensures JobSpan(lib, c).hi - JobSpan(lib, c).lo == c.expected.actualUnits <= c.expected.maxTotalUnits
  {
    JobAcceptedIff(lib, c);
    ChargeOfNothing(p);
  }

  /** However it is paid for, an accepted job bills no more than its unit ceiling would cost. */
  lemma JobCeiling(lib: Library, c: JobClaim)
    requires JobAccepted(lib, c)
    ensures c.expected.amountWei >= 0 && c.expected.perUnits > 0
    ensures 0 <= JobBilled(lib, c) <= Charge(c.expected.maxTotalUnits, Price(c.expected.amountWei, c.expected.perUnits))
  {
    JobAcceptedIff(lib, c);
    var p := Price(c.expected.amountWei, c.expected.perUnits);
    JobBillIsStep(lib, c, p);
    StepAtMostCharge(JobSpan(lib, c), p);
    ChargeGrows(c.expected.actualUnits, c.expected.maxTotalUnits, p);
  }

  // ---- One session settlement ----

  ghost predicate SessionIdentity(r: Record, e: SessionExpectation) {
    && r.gatewaySessionId == e.gatewaySessionId && r.jobId == "" && r.workUnitName == e.workUnit && r.quote == e.quote
    && r.sessionId != "" && (e.brokerSessionId == None || e.brokerSessionId == Some(r.sessionId))
    && r.workId == e.workId && r.predecessorWorkId == e.predecessorWorkId
    && r.rotationGeneration == e.rotationGeneration
  }

  /** Claimed and debited units differ only when the authorization ran out, and then the bill is the curve's
      and nothing stays reserved. */
  ghost predicate SessionAccounts(r: Record, e: SessionExpectation) {
    var billed := Amount(r.billedValueWei);
    && Amount(r.amountWei) == e.amountWei && r.perUnits == e.perUnits
    && e.lastSettlementSeq < r.settlementSeq && (e.requireTerminal ==> r.state == "closed")
    && r.actualUnits == r.billedUnits == r.debitedUnits && r.generationDebitedUnits <= r.debitedUnits
    && (r.claimedUnits == r.debitedUnits ||
        (e.authorizationId.Some? && r.state == "closed" && r.claimedUnits > r.debitedUnits &&
         "termination_reason" in r.breakdown && r.breakdown["termination_reason"] == "authorization_exhausted" &&
         r.perUnits > 0 && Amount(r.reservedValueWei) == 0 &&
         billed == Charge(r.debitedUnits, Price(e.amountWei, e.perUnits))))
    && Amount(r.generationBilledValueWei) <= billed <= e.fundedValueWei
    && Amount(r.fundedValueWei) <= e.fundedValueWei
    && match e.authorizationId
       case None => r.authorizationId == ""
       case Some(id) => r.authorizationId == r.workId == id && AccountsWithin(r, e.authorizedValueWei, billed)
  }

  ghost predicate ReadableDiagnostics(lib: Library, breakdown: map<string, string>) {
    && CodeOrNone(breakdown, "termination_reason") && CodeOrNone(breakdown, "last_failure_code")
    && ("output_state" in breakdown && breakdown["output_state"] != "" ==>
          breakdown["output_state"] in {"unknown", "waiting", "producing", "stalled"})
    && ("output_state_since" in breakdown && breakdown["output_state_since"] != "" ==>
          lib.parseTimestamp(breakdown["output_state_since"], "output_state_since").Ok?)
  }

  ghost predicate SessionEvidence(lib: Library, r: Record, e: SessionExpectation) {
    && !r.outcome.DebitFailed? && !r.outcome.Unlisted?
    && r.wholesaleAccountId == e.wholesaleAccountId != "" && r.settlementDomainId == e.settlementDomainId != ""
    && SessionIdentity(r, e) && SessionAccounts(r, e) && ReadableDiagnostics(lib, r.breakdown)
  }

  lemma SessionAccountingIff(r: Record, e: SessionExpectation)
    ensures VerifySessionAccounting(r, e).Ok? <==> SessionAccounts(r, e)
    ensures VerifySessionAccounting(r, e).Ok? ==> VerifySessionAccounting(r, e).value == Amount(r.billedValueWei)
  {
    AmountsAreRead();
  }

  lemma DiagnosticsIff(lib: Library, r: Record)
    ensures VerifySessionDiagnostics(lib, r).Ok? <==> ReadableDiagnostics(lib, r.breakdown)
  {
    CodeOrNoneIff(r.breakdown, "termination_reason");
    CodeOrNoneIff(r.breakdown, "last_failure_code");
  }

  lemma SessionRecordIff(lib: Library, r: Record, t: Instant, key: string, e: SessionExpectation)
    ensures VerifySessionRecord(lib, r, t, key, e).Ok? <==> SessionEvidence(lib, r, e)
  {
    SessionAccountingIff(r, e);
    DiagnosticsIff(lib, r);
  }

  lemma SessionRecordReports(lib: Library, r: Record, t: Instant, key: string, e: SessionExpectation)
    requires VerifySessionRecord(lib, r, t, key, e).Ok?
    ensures SessionReports(VerifySessionRecord(lib, r, t, key, e).value, r, t, key)
  {
    SessionAccountingIff(r, e);
  }

  /** What is reported is what was signed. */
  predicate SessionReports(v: VerifiedSession, r: Record, t: Instant, key: string) {
    && v.brokerSessionId == r.sessionId && v.settlementSeq == r.settlementSeq && v.state == r.state
    && v.claimedUnits == r.claimedUnits && v.debitedUnits == r.debitedUnits
    && v.billedValueWei == Amount(r.billedValueWei) && v.issuedAt == t && v.signingKey == key
  }

  /** A session settlement is accepted exactly when its envelope is and the record says everything that is
      required; what is reported is what was signed. */
  lemma SessionAcceptedIff(lib: Library, env: Envelope, keys: seq<Delegation>, e: SessionExpectation)
    ensures VerifySession(lib, env, keys, e).Ok? <==>
            VerifyEnvelope(lib, env, keys).Ok? && SessionEvidence(lib, VerifyEnvelope(lib, env, keys).value.0, e)
    ensures VerifySession(lib, env, keys, e).Ok? ==>
            var (r, issuedAt, key) := VerifyEnvelope(lib, env, keys).value;
            SessionReports(VerifySession(lib, env, keys, e).value, r, issuedAt, key)
  {
    if VerifyEnvelope(lib, env, keys).Ok? {
      var (r, t, key) := VerifyEnvelope(lib, env, keys).value;
      SessionRecordIff(lib, r, t, key, e);
      if VerifySessionRecord(lib, r, t, key, e).Ok? { SessionRecordReports(lib, r, t, key, e); }
    }
  }

  // ---- Many jobs ----

  ghost predicate AllAccepted(lib: Library, claims: seq<JobClaim>, p: Price) {
    forall i :: 0 <= i < |claims| ==> JobAccepted(lib, claims[i]) && Priced(claims[i].expected, p)
  }

  ghost function TotalBilled(lib: Library, claims: seq<JobClaim>, p: Price): int
    requires AllAccepted(lib, claims, p)
  {
    if claims == [] then 0 else JobBilled(lib, claims[0]) + TotalBilled(lib, claims[1..], p)
  }

  ghost function Spans(lib: Library, claims: seq<JobClaim>, p: Price): (spans: seq<Span>)
    requires AllAccepted(lib, claims, p)
    ensures |spans| == |claims|
  {
    if claims == [] then [] else [JobSpan(lib, claims[0])] + Spans(lib, claims[1..], p)
  }

  lemma {:induction false} BilledIsSteps(lib: Library, claims: seq<JobClaim>, p: Price)
    requires IsPrice(p) && AllAccepted(lib, claims, p)
    ensures TotalBilled(lib, claims, p) == ChargedInSteps(Spans(lib, claims, p), p)
  {
    if claims != [] {
      BilledIsSteps(lib, claims[1..], p);
      JobBillIsStep(lib, claims[0], p);
      assert Spans(lib, claims, p)[1..] == Spans(lib, claims[1..], p);
    }
  }

  /** Ticket-backed jobs whose units tile the first `n` are billed exactly `bill(n)`, in whatever order
      they were verified. */
  lemma TicketJobsTelescope(lib: Library, claims: seq<JobClaim>, n: nat, p: Price)
    requires IsPrice(p) && AllAccepted(lib, claims, p)
    requires forall i :: 0 <= i < |claims| ==> claims[i].expected.authorizationId.None?
    requires Tile(Spans(lib, claims, p), n)
    ensures TotalBilled(lib, claims, p) == Charge(n, p)
  {
    BilledIsSteps(lib, claims, p);
    StepsTelescope(Spans(lib, claims, p), n, p);
  }

  function Lots(claims: seq<JobClaim>): seq<int> {
    if claims == [] then [] else [claims[0].expected.actualUnits] + Lots(claims[1..])
  }

  lemma {:induction false} BilledIsApart(lib: Library, claims: seq<JobClaim>, p: Price) returns (lots: seq<nat>)
    requires IsPrice(p) && AllAccepted(lib, claims, p)
    requires forall i :: 0 <= i < |claims| ==> claims[i].expected.authorizationId.Some?
    ensures lots == Lots(claims) && |lots| == |claims|
    ensures TotalBilled(lib, claims, p) == ChargedApart(lots, p)
  {
    lots := [];
    if claims != [] {
      var rest := BilledIsApart(lib, claims[1..], p);
      JobAcceptedIff(lib, claims[0]);
      lots := [JobRecord(lib, claims[0]).debitedUnits] + rest;
      assert lots[1..] == rest;
    }
  }

  /** Authorization-backed jobs billed one by one come to at least the bill for all their units and to less
      than one wei a job more. */
  lemma AuthorizedJobsRound(lib: Library, claims: seq<JobClaim>, p: Price) returns (units: nat)
    requires IsPrice(p) && claims != [] && AllAccepted(lib, claims, p)
    requires forall i :: 0 <= i < |claims| ==> claims[i].expected.authorizationId.Some?
    ensures units == UnitTotal(claims)
    ensures Charge(units, p) <= TotalBilled(lib, claims, p) <= Charge(units, p) + |claims| - 1
  {
    var lots := BilledIsApart(lib, claims, p);
    LotsTotal(claims, lots);
    units := Total(lots);
    RoundingBound(lots, p);
  }

  function UnitTotal(claims: seq<JobClaim>): int {
    if claims == [] then 0 else claims[0].expected.actualUnits + UnitTotal(claims[1..])
  }

  lemma {:induction false} LotsTotal(claims: seq<JobClaim>, lots: seq<nat>)
    requires lots == Lots(claims)
    ensures Total(lots) == UnitTotal(claims)
  {
    if claims != [] {
      assert lots[1..] == Lots(claims[1..]);
      LotsTotal(claims[1..], lots[1..]);
    }
  }

  // ---- Jobs and sessions against their authorizations ----

  datatype Claim =
    | Job(job: JobClaim)
    | Session(envelope: Envelope, keys: seq<Delegation>, expected: SessionExpectation)

  predicate ClaimAccepted(lib: Library, c: Claim) {
    match c
    case Job(j) => JobAccepted(lib, j)
    case Session(env, keys, e) => VerifySession(lib, env, keys, e).Ok?
  }

  function AuthorizedValue(c: Claim): Option<int> {
    match c
    case Job(j) => if j.expected.authorizationId.Some? then j.expected.authorizedValueWei else None
    case Session(_, _, e) => if e.authorizationId.Some? then e.authorizedValueWei else None
  }

  function Billed(lib: Library, c: Claim): int
    requires ClaimAccepted(lib, c)
  {
    match c
    case Job(j) => JobBilled(lib, j)
    case Session(env, keys, e) => VerifySession(lib, env, keys, e).value.billedValueWei
  }

  function Released(lib: Library, c: Claim): int
    requires ClaimAccepted(lib, c)
  {
    match c
    case Job(j) => Amount(JobRecord(lib, j).releasedValueWei)
    case Session(env, keys, _) => Amount(VerifyEnvelope(lib, env, keys).value.0.releasedValueWei)
  }

  predicate AuthorizationBacked(c: Claim) {
    match c
    case Job(j) => j.expected.authorizationId.Some?
    case Session(_, _, e) => e.authorizationId.Some?
  }

  lemma ClaimWithinAuthorization(lib: Library, c: Claim)
    requires ClaimAccepted(lib, c) && AuthorizationBacked(c)
    ensures AuthorizedValue(c).Some? && 0 <= Billed(lib, c) && 0 <= Released(lib, c)
    ensures Billed(lib, c) + Released(lib, c) <= AuthorizedValue(c).value
  {
    match c
    case Job(j) => JobAcceptedIff(lib, j);
    case Session(env, keys, e) => SessionAcceptedIff(lib, env, keys, e);
  }

  ghost predicate BackedAndAccepted(lib: Library, claims: seq<Claim>) {
    forall i :: 0 <= i < |claims| ==> ClaimAccepted(lib, claims[i]) && AuthorizationBacked(claims[i])
  }

  ghost function SpentOrReturned(lib: Library, claims: seq<Claim>): int
    requires BackedAndAccepted(lib, claims)
  {
    if claims == [] then 0
    else Billed(lib, claims[0]) + Released(lib, claims[0]) + SpentOrReturned(lib, claims[1..])
  }

  function TotalAuthorized(claims: seq<Claim>): int {
    if claims == [] then 0
    else
      var authorized := AuthorizedValue(claims[0]);
      (if authorized.Some? then authorized.value else 0) + TotalAuthorized(claims[1..])
  }

  /** Over any accepted jobs and sessions, what is billed and what is released never pass what was authorized. */
  lemma {:induction false} NeverPastAuthorization(lib: Library, claims: seq<Claim>)
    requires BackedAndAccepted(lib, claims)
    ensures 0 <= SpentOrReturned(lib, claims) <= TotalAuthorized(claims)
  {
    if claims != [] {
      ClaimWithinAuthorization(lib, claims[0]);
      NeverPastAuthorization(lib, claims[1..]);
    }
  }
}
