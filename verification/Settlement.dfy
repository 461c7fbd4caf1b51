/** Verification of broker-signed settlement envelopes, branch by branch in the source's order. */
module Settlement {
  import opened Results
  import opened Words
  import Billing

  /** Seconds or finer; only the order of instants matters. */
  type Instant = int

  function FromBigEndian(bytes: Bytes): (n: nat) {
    if bytes == [] then 0 else 256 * FromBigEndian(bytes[..|bytes| - 1]) + bytes[|bytes| - 1]
  }

  // ---- Data ----

  datatype QuoteRef = QuoteRef(id: string, version: U64, constraint: Bytes, route: Bytes)

  datatype RecordOutcome =
    Unspecified | Exact | Underfunded | Overfunded | StoppedAtBudget | ToppedUp | DebitFailed | Unlisted(number: int)

  datatype Record = Record(
    wholesaleAccountId: string, settlementDomainId: string,
    requestId: string, jobId: string, workId: string, authorizationId: string,
    gatewaySessionId: string, sessionId: string, predecessorWorkId: string, rotationGeneration: U64,
    workUnitName: string, quote: QuoteRef, outcome: RecordOutcome, state: string, settlementSeq: U64,
    actualUnits: U64, billedUnits: U64, claimedUnits: U64, debitedUnits: U64,
    generationDebitedUnits: U64, paymentCumulativeUnits: U64, perUnits: U64,
    amountWei: Bytes, fundedValueWei: Bytes, billedValueWei: Bytes, generationBilledValueWei: Bytes,
    authorizedValueWei: Bytes, reservedValueWei: Bytes, releasedValueWei: Bytes,
    breakdown: map<string, string>)

  datatype JobExpectation = JobExpectation(
    wholesaleAccountId: string, settlementDomainId: string, requestId: string, jobId: string, workId: string,
    workUnit: string, actualUnits: int, maxTotalUnits: int, fundedValueWei: int, amountWei: int, perUnits: int,
    quote: QuoteRef, authorizationId: Option<string>, authorizedValueWei: Option<int>)

  datatype SessionExpectation = SessionExpectation(
    wholesaleAccountId: string, settlementDomainId: string, gatewaySessionId: string,
    brokerSessionId: Option<string>, workId: string, predecessorWorkId: string, rotationGeneration: int,
    workUnit: string, amountWei: int, perUnits: int, quote: QuoteRef, fundedValueWei: int,
    lastSettlementSeq: int, authorizationId: Option<string>, authorizedValueWei: Option<int>,
    requireTerminal: bool)

  datatype VerifiedJob = VerifiedJob(
    actualUnits: int, billedValueWei: int, outcome: string, issuedAt: Instant, signingKey: string)

  datatype VerifiedSession = VerifiedSession(
    brokerSessionId: string, workId: string, predecessorWorkId: string, rotationGeneration: int, settlementSeq: int,
    state: string, claimedUnits: int, debitedUnits: int,
    billedValueWei: int, outcome: string, issuedAt: Instant, signingKey: string, diagnostics: Diagnostics)

  datatype Diagnostics = Diagnostics(
    terminationReason: Option<string>, outputState: Option<string>, outputStateSince: Option<Instant>,
    lastFailureCode: Option<string>)

  // ---- Signatures and delegated keys ----

  datatype Signature = Signature(algorithm: string, canonicalization: string, value: string)

  /** `payload` is the text of the JSON object; `None` stands for anything that is not an object. */
  datatype Envelope = Envelope(payload: Option<string>, signature: Option<Signature>)

  /** The library calls, as functions: canonical JSON, public-key recovery, protobuf and time parsing. */
  datatype Library = Library(
    canonicalize: string -> Result<Bytes>,
    recoverKey: (Bytes, string) -> Result<string>,
    issuedAt: string -> Result<Instant>,
    parseRecord: string -> Option<Record>,
    parseTimestamp: (string, string) -> Result<Instant>)

  /** A delegation bound as parsed: absent or unreadable, without a time zone, or an instant. */
  datatype Bound = Unreadable | Naive | At(instant: Instant)

  datatype Delegation = Delegation(publicKey: string, notBefore: Bound, expiresAt: Bound)

  /** What one delegation decides about a key: nothing, that it may sign, or that verification stops. */
  datatype Verdict = Skip | Grant | Stop(code: string)

  /** Comparing an instant with a time that has no zone raises TypeError, which nothing here catches. */
  function Judge(d: Delegation, key: string, issuedAt: Instant): Verdict {
    if d.publicKey != key then Skip
    else if d.notBefore.Unreadable? || d.expiresAt.Unreadable? then Stop("invalid_delegation")
    else if d.notBefore.Naive? then Stop("TypeError")
    else if d.notBefore.instant > issuedAt then Skip
    else if d.expiresAt.Naive? then Stop("TypeError")
    else if issuedAt <= d.expiresAt.instant then Grant
    else Skip
  }

  function AuthorizeKey(key: string, issuedAt: Instant, delegations: seq<Delegation>): Outcome {
    if delegations == [] then Fail("unauthorized_signing_key")
    else match Judge(delegations[0], key, issuedAt)
      case Skip => AuthorizeKey(key, issuedAt, delegations[1..])
      case Grant => Pass
      case Stop(code) => Fail(code)
  }

  /** The scan as the source runs it. */
  method ScanDelegations(key: string, issuedAt: Instant, delegations: seq<Delegation>) returns (r: Outcome)
    ensures r == AuthorizeKey(key, issuedAt, delegations)
  {
    for i := 0 to |delegations|
      invariant AuthorizeKey(key, issuedAt, delegations) == AuthorizeKey(key, issuedAt, delegations[i..])
    {
      match Judge(delegations[i], key, issuedAt)
      case Skip => assert delegations[i..][1..] == delegations[i + 1..];
      case Grant => return Pass;
      case Stop(code) => return Fail(code);
    }
    return Fail("unauthorized_signing_key");
  }

  function VerifyEnvelope(lib: Library, e: Envelope, keys: seq<Delegation>): Result<(Record, Instant, string)> {
    var present := e.payload.Some? && e.signature.Some?;
    :- Need(present, "malformed_envelope");
    var payload, signature := e.payload.value, e.signature.value;
    :- Need(signature.algorithm == "secp256k1" && signature.canonicalization == "jcs", "unsupported_signature");
    var canonical :- lib.canonicalize(payload);
    var key :- lib.recoverKey(canonical, signature.value);
    var issuedAt :- lib.issuedAt(payload);
    :- AuthorizeKey(key, issuedAt, keys);
    var record := lib.parseRecord(payload);
    :- Need(record.Some?, "malformed_payload");
    Ok((record.value, issuedAt, key))
  }

  // ---- Checks shared by jobs and sessions ----

  function CheckScope(r: Record, accountId: string, domainId: string): Outcome {
    if r.outcome.DebitFailed? then Fail("debit_failed")
    else if accountId == "" || r.wholesaleAccountId != accountId then Fail("wholesale_account_mismatch")
    else if domainId == "" || r.settlementDomainId != domainId then Fail("settlement_domain_mismatch")
    else Pass
  }

  function OutcomeName(o: RecordOutcome): Result<string> {
    match o
    case Unspecified => Ok("SETTLEMENT_OUTCOME_UNSPECIFIED")
    case Exact => Ok("EXACT")
    case Underfunded => Ok("UNDERFUNDED")
    case Overfunded => Ok("OVERFUNDED")
    case StoppedAtBudget => Ok("STOPPED_AT_BUDGET")
    case ToppedUp => Ok("TOPPED_UP")
    case DebitFailed => Ok("DEBIT_FAILED")
    case Unlisted(_) => Err("ValueError")
  }

  function VerifyAuthorizationAccounting(r: Record, authorizationId: Option<string>, authorizedValueWei: Option<int>,
                                         billed: int): Outcome {
    if authorizationId.None? then
      if r.authorizationId != "" then Fail("unexpected_authorization") else Pass
    else if r.authorizationId != authorizationId.value || r.workId != authorizationId.value then
      Fail("authorization_id_mismatch")
    else if authorizedValueWei.None? then Fail("missing_authorization_ceiling")
    else
      var signed := FromBigEndian(r.authorizedValueWei);
      var reserved := FromBigEndian(r.reservedValueWei);
      var released := FromBigEndian(r.releasedValueWei);
      if signed != authorizedValueWei.value then Fail("authorization_ceiling_mismatch")
      else if billed > signed || reserved > signed || released > signed || billed + released > signed then
        Fail("authorization_accounting_invalid")
      else Pass
  }

  // ---- Jobs ----

  function JobNormativeBill(r: Record, e: JobExpectation): Result<int> {
    var cumulative := r.paymentCumulativeUnits;
    if e.authorizationId.Some? then
      :- Need(cumulative == 0, "payment_curve_invalid");
      Billing.Bill(r.debitedUnits, e.amountWei, e.perUnits)
    else
      :- Need(cumulative >= r.debitedUnits, "payment_curve_invalid");
      var after :- Billing.Bill(cumulative, e.amountWei, e.perUnits);
      var before :- Billing.Bill(cumulative - r.debitedUnits, e.amountWei, e.perUnits);
      Ok(after - before)
  }

  function VerifyJob(lib: Library, env: Envelope, keys: seq<Delegation>, e: JobExpectation): Result<VerifiedJob> {
    var (r, issuedAt, key) :- VerifyEnvelope(lib, env, keys);
    VerifyJobRecord(r, issuedAt, key, e)
  }

  /** What comes after the envelope. */
  function VerifyJobRecord(r: Record, issuedAt: Instant, key: string, e: JobExpectation): Result<VerifiedJob> {
    var scope := CheckScope(r, e.wholesaleAccountId, e.settlementDomainId);
    :- scope;
    :- Need(r.requestId == e.requestId, "request_id_mismatch");
    :- Need(r.jobId == e.jobId, "job_id_mismatch");
    :- Need(r.workId == e.workId, "work_id_mismatch");
    :- Need(r.workUnitName == e.workUnit, "work_unit_mismatch");
    :- Need(r.actualUnits == e.actualUnits && r.billedUnits == e.actualUnits && r.debitedUnits == e.actualUnits,
            "work_units_mismatch");
    :- Need(r.actualUnits <= e.maxTotalUnits, "usage_ceiling_exceeded");
    :- Need(r.quote == e.quote, "quote_mismatch");
    var billed := FromBigEndian(r.billedValueWei);
    var normative :- JobNormativeBill(r, e);
    :- Need(billed == normative, "billed_value_mismatch");
    :- Need(e.authorizationId.Some? || billed <= e.fundedValueWei, "funding_ceiling_exceeded");
    :- VerifyAuthorizationAccounting(r, e.authorizationId, e.authorizedValueWei, billed);
    var outcome :- OutcomeName(r.outcome);
    Ok(VerifiedJob(r.actualUnits, billed, outcome, issuedAt, key))
  }

  // ---- Sessions ----

  function VerifySessionIdentity(r: Record, e: SessionExpectation): Outcome {
    if r.gatewaySessionId != e.gatewaySessionId then Fail("gateway_session_id_mismatch")
    else if r.sessionId == "" then Fail("missing_session_id")
    else if e.brokerSessionId.Some? && r.sessionId != e.brokerSessionId.value then Fail("session_id_mismatch")
    else if r.jobId != "" then Fail("job_id_present")
    else if r.workId != e.workId then Fail("work_id_mismatch")
    else if r.predecessorWorkId != e.predecessorWorkId then Fail("predecessor_mismatch")
    else if r.rotationGeneration != e.rotationGeneration then Fail("rotation_generation_mismatch")
    else if r.workUnitName != e.workUnit then Fail("work_unit_mismatch")
    else if r.quote != e.quote then Fail("quote_mismatch")
    else Pass
  }

  /** A session closed because its authorization ran out may claim more than was debited. */
  predicate Exhausted(r: Record, e: SessionExpectation) {
    && e.authorizationId.Some?
    && r.state == "closed"
    && "termination_reason" in r.breakdown && r.breakdown["termination_reason"] == "authorization_exhausted"
    && r.claimedUnits > r.debitedUnits
  }

  function VerifySessionAccounting(r: Record, e: SessionExpectation): Result<int> {
    var amount := FromBigEndian(r.amountWei);
    :- Need(amount == e.amountWei && r.perUnits == e.perUnits, "pricing_mismatch");
    :- Need(r.settlementSeq > e.lastSettlementSeq, "settlement_replay");
    :- Need(!e.requireTerminal || r.state == "closed", "session_not_terminal");
    :- Need(r.claimedUnits == r.debitedUnits || Exhausted(r, e), "claim_debit_gap");
    :- Need(r.actualUnits == r.debitedUnits && r.billedUnits == r.debitedUnits, "work_units_mismatch");
    :- Need(r.generationDebitedUnits <= r.debitedUnits, "generation_units_invalid");
    var billed := FromBigEndian(r.billedValueWei);
    :- CheckExhausted(r, e, billed);
    :- Need(billed <= e.fundedValueWei && FromBigEndian(r.fundedValueWei) <= e.fundedValueWei, "session_cap_exceeded");
    :- Need(FromBigEndian(r.generationBilledValueWei) <= billed, "generation_value_invalid");
    :- VerifyAuthorizationAccounting(r, e.authorizationId, e.authorizedValueWei, billed);
    Ok(billed)
  }

  function CheckExhausted(r: Record, e: SessionExpectation, billed: int): Outcome {
    if !Exhausted(r, e) then Pass
    else match Billing.Bill(r.debitedUnits, e.amountWei, e.perUnits)
      case Err(code) => Fail(code)
      case Ok(bill) =>
        Need(billed == bill && FromBigEndian(r.reservedValueWei) == 0, "authorization_accounting_invalid")
  }

  predicate SafeCode(s: string) {
    && 1 <= |s| <= 64
    && 'a' <= s[0] <= 'z'
    && forall i :: 1 <= i < |s| ==> 'a' <= s[i] <= 'z' || '0' <= s[i] <= '9' || s[i] == '_'
  }

  /** A breakdown entry; an empty one counts as absent. */
  function Entry(breakdown: map<string, string>, name: string): Option<string> {
    if name in breakdown && breakdown[name] != "" then Some(breakdown[name]) else None
  }

  function VerifySessionDiagnostics(lib: Library, r: Record): Result<Diagnostics> {
    var reason := Entry(r.breakdown, "termination_reason");
    var state := Entry(r.breakdown, "output_state");
    var since := Entry(r.breakdown, "output_state_since");
    var failure := Entry(r.breakdown, "last_failure_code");
    :- Need(reason.None? || SafeCode(reason.value), "termination_reason_invalid");
    :- Need(state.None? || state.value in {"unknown", "waiting", "producing", "stalled"}, "output_state_invalid");
    var sinceAt :- if since.None? then Ok(None) else ParseSince(lib, since.value);
    :- Need(failure.None? || SafeCode(failure.value), "last_failure_code_invalid");
    Ok(Diagnostics(reason, state, sinceAt, failure))
  }

  function ParseSince(lib: Library, text: string): Result<Option<Instant>> {
    var at :- lib.parseTimestamp(text, "output_state_since");
    Ok(Some(at))
  }

  function VerifySession(lib: Library, env: Envelope, keys: seq<Delegation>, e: SessionExpectation)
    : Result<VerifiedSession>
  {
    var (r, issuedAt, key) :- VerifyEnvelope(lib, env, keys);
    VerifySessionRecord(lib, r, issuedAt, key, e)
  }

  /** What comes after the envelope. */
  function VerifySessionRecord(lib: Library, r: Record, issuedAt: Instant, key: string, e: SessionExpectation)
    : Result<VerifiedSession>
  {
    var scope := CheckScope(r, e.wholesaleAccountId, e.settlementDomainId);
    :- scope;
    :- VerifySessionIdentity(r, e);
    var billed :- VerifySessionAccounting(r, e);
    var diagnostics :- VerifySessionDiagnostics(lib, r);
    var outcome :- OutcomeName(r.outcome);
    Ok(VerifiedSession(r.sessionId, r.workId, r.predecessorWorkId, r.rotationGeneration, r.settlementSeq, r.state,
                       r.claimedUnits, r.debitedUnits, billed, outcome, issuedAt, key, diagnostics))
  }
}
