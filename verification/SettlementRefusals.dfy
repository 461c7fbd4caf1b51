/** Which error a refused settlement gets: that of the first requirement it fails, in the source's order. */
module SettlementRefusals {
  import opened Results
  import opened Words
  import opened Settlement
  import opened SettlementAmounts
  import opened SettlementProofs
  import opened Billing

  /** The error of the first requirement that is not met; `None` if all are. */
  type Fault = Option<string>

  function Require(met: bool, code: string, rest: Fault): Fault { if met then rest else Some(code) }

  predicate Scoped(signed: string, expected: string) { expected != "" && signed == expected }

  function ScopeFault(r: Record, accountId: string, domainId: string, rest: Fault): Fault {
    Require(r.outcome != DebitFailed, "debit_failed",
    Require(Scoped(r.wholesaleAccountId, accountId), "wholesale_account_mismatch",
    Require(Scoped(r.settlementDomainId, domainId), "settlement_domain_mismatch", rest)))
  }

  /** Without an authorization the record may carry none; with one it is the work id, its ceiling is the one on file,
      and what was billed, reserved and released is within it. */
  function AuthorizationFault(r: Record, id: Option<string>, authorized: Option<int>, rest: Fault): Fault {
    var billed, released := Amount(r.billedValueWei), Amount(r.releasedValueWei);
    match id
    case None => Require(r.authorizationId == "", "unexpected_authorization", rest)
    case Some(expected) =>
      Require(r.authorizationId == expected && r.workId == expected, "authorization_id_mismatch",
      Require(authorized != None, "missing_authorization_ceiling",
      Require(authorized == Some(Amount(r.authorizedValueWei)), "authorization_ceiling_mismatch",
      Require(billed + released <= Amount(r.authorizedValueWei) &&
              Amount(r.reservedValueWei) <= Amount(r.authorizedValueWei), "authorization_accounting_invalid", rest))))
  }

  function OutcomeFault(r: Record): Fault { Require(!r.outcome.Unlisted?, "ValueError", None) }

  /** The price is one that the curve is defined for. */
  predicate Priceable(amount: int, per: int) { amount >= 0 && per > 0 }

  /** What the curve asks for a job; read only where the price is valid. */
  function NormativeBill(r: Record, e: JobExpectation): int {
    if !Priceable(e.amountWei, e.perUnits) then 0
    else
      var p := Price(e.amountWei, e.perUnits);
      if e.authorizationId != None then Charge(r.debitedUnits, p)
      else if r.paymentCumulativeUnits < r.debitedUnits then 0
      else Charge(r.paymentCumulativeUnits, p) - Charge(r.paymentCumulativeUnits - r.debitedUnits, p)
  }

  function JobBillFault(r: Record, e: JobExpectation): Fault {
    Require(if e.authorizationId != None then r.paymentCumulativeUnits == 0
            else r.debitedUnits <= r.paymentCumulativeUnits, "payment_curve_invalid",
    Require(Priceable(e.amountWei, e.perUnits), "invalid_pricing",
    Require(Amount(r.billedValueWei) == NormativeBill(r, e), "billed_value_mismatch",
    Require(e.authorizationId != None || Amount(r.billedValueWei) <= e.fundedValueWei, "funding_ceiling_exceeded",
    AuthorizationFault(r, e.authorizationId, e.authorizedValueWei, OutcomeFault(r))))))
  }

  function JobFault(r: Record, e: JobExpectation): Fault {
    ScopeFault(r, e.wholesaleAccountId, e.settlementDomainId,
    Require(r.requestId == e.requestId, "request_id_mismatch",
    Require(r.jobId == e.jobId, "job_id_mismatch",
    Require(r.workId == e.workId, "work_id_mismatch",
    Require(r.workUnitName == e.workUnit, "work_unit_mismatch",
    Require(r.actualUnits == r.billedUnits == r.debitedUnits == e.actualUnits, "work_units_mismatch",
    Require(r.actualUnits <= e.maxTotalUnits, "usage_ceiling_exceeded",
    Require(r.quote == e.quote, "quote_mismatch",
    JobBillFault(r, e)))))))))
  }

  /** What `Outcome.Name` gives, value by value. */
  predicate IsNameOf(name: string, o: RecordOutcome) {
    || (o == Unspecified && name == "SETTLEMENT_OUTCOME_UNSPECIFIED") || (o == Exact && name == "EXACT")
    || (o == Underfunded && name == "UNDERFUNDED") || (o == Overfunded && name == "OVERFUNDED")
    || (o == StoppedAtBudget && name == "STOPPED_AT_BUDGET") || (o == ToppedUp && name == "TOPPED_UP")
    || (o == DebitFailed && name == "DEBIT_FAILED")
  }

  lemma JobBillRefusal(r: Record, e: JobExpectation)
    ensures JobNormativeBill(r, e) ==
            if (if e.authorizationId != None then r.paymentCumulativeUnits != 0
                else r.paymentCumulativeUnits < r.debitedUnits) then Err("payment_curve_invalid")
            else if !Priceable(e.amountWei, e.perUnits) then Err("invalid_pricing")
            else Ok(NormativeBill(r, e))
  {
  }

  lemma AuthorizationRefusal(r: Record, id: Option<string>, authorized: Option<int>, rest: Fault)
    ensures AuthorizationFault(r, id, authorized, rest) ==
            match VerifyAuthorizationAccounting(r, id, authorized, Amount(r.billedValueWei))
            case Pass => rest
            case Fail(code) => Some(code)
  {
    AmountsAreRead();
  }

  lemma JobBillFaultDecides(r: Record, t: Instant, key: string, e: JobExpectation)
    requires ScopeFault(r, e.wholesaleAccountId, e.settlementDomainId, None) == None
    requires r.requestId == e.requestId && r.jobId == e.jobId && r.workId == e.workId && r.workUnitName == e.workUnit
    requires r.actualUnits == r.billedUnits == r.debitedUnits == e.actualUnits <= e.maxTotalUnits && r.quote == e.quote
    ensures var v := VerifyJobRecord(r, t, key, e);
            JobBillFault(r, e) == if v.Ok? then None else Some(v.code)
  {
    JobBillRefusal(r, e);
    AmountsAreRead();
    AuthorizationRefusal(r, e.authorizationId, e.authorizedValueWei, OutcomeFault(r));
  }

  /** A job record is refused with the error of the first requirement it fails, and accepted if it meets all; then its
      units, amount and outcome are reported with the signed time and key. */
  lemma JobRefusedByFirst(r: Record, t: Instant, key: string, e: JobExpectation)
    ensures var v := VerifyJobRecord(r, t, key, e);
            JobFault(r, e) == if v.Ok? then None else Some(v.code)
    ensures VerifyJobRecord(r, t, key, e).Ok? ==>
            var v := VerifyJobRecord(r, t, key, e).value;
            && v.actualUnits == r.actualUnits && v.billedValueWei == Amount(r.billedValueWei)
            && IsNameOf(v.outcome, r.outcome) && v.issuedAt == t && v.signingKey == key
  {
    AmountsAreRead();
    if ScopeFault(r, e.wholesaleAccountId, e.settlementDomainId, None) == None &&
       r.requestId == e.requestId && r.jobId == e.jobId && r.workId == e.workId && r.workUnitName == e.workUnit &&
       r.actualUnits == r.billedUnits == r.debitedUnits == e.actualUnits <= e.maxTotalUnits && r.quote == e.quote
    {
      JobBillFaultDecides(r, t, key, e);
    }
  }

  // ---- Sessions ----

  function SessionIdentityFault(r: Record, e: SessionExpectation, rest: Fault): Fault {
    Require(r.gatewaySessionId == e.gatewaySessionId, "gateway_session_id_mismatch",
    Require(r.sessionId != "", "missing_session_id",
    Require(e.brokerSessionId == None || e.brokerSessionId == Some(r.sessionId), "session_id_mismatch",
    Require(r.jobId == "", "job_id_present",
    Require(r.workId == e.workId, "work_id_mismatch",
    Require(r.predecessorWorkId == e.predecessorWorkId, "predecessor_mismatch",
    Require(r.rotationGeneration == e.rotationGeneration, "rotation_generation_mismatch",
    Require(r.workUnitName == e.workUnit, "work_unit_mismatch",
    Require(r.quote == e.quote, "quote_mismatch", rest)))))))))
  }

  /** The session was closed because its authorization ran out, with more claimed than debited. */
  predicate RanOut(r: Record, e: SessionExpectation) {
    && e.authorizationId != None && r.state == "closed" && r.claimedUnits > r.debitedUnits
    && "termination_reason" in r.breakdown && r.breakdown["termination_reason"] == "authorization_exhausted"
  }

  function ExhaustionFault(r: Record, e: SessionExpectation, rest: Fault): Fault {
    if !RanOut(r, e) then rest
    else
      Require(Priceable(e.amountWei, e.perUnits), "invalid_pricing",
      Require(Priceable(e.amountWei, e.perUnits) &&
              Amount(r.billedValueWei) == Charge(r.debitedUnits, Price(e.amountWei, e.perUnits)) &&
              Amount(r.reservedValueWei) == 0, "authorization_accounting_invalid", rest))
  }

  function SessionValueFault(r: Record, e: SessionExpectation, rest: Fault): Fault {
    ExhaustionFault(r, e,
    Require(Amount(r.billedValueWei) <= e.fundedValueWei && Amount(r.fundedValueWei) <= e.fundedValueWei,
            "session_cap_exceeded",
    Require(Amount(r.generationBilledValueWei) <= Amount(r.billedValueWei), "generation_value_invalid",
    AuthorizationFault(r, e.authorizationId, e.authorizedValueWei, rest))))
  }

  function SessionAccountingFault(r: Record, e: SessionExpectation, rest: Fault): Fault {
    Require(Amount(r.amountWei) == e.amountWei && r.perUnits == e.perUnits, "pricing_mismatch",
    Require(e.lastSettlementSeq < r.settlementSeq, "settlement_replay",
    Require(e.requireTerminal ==> r.state == "closed", "session_not_terminal",
    Require(r.claimedUnits == r.debitedUnits || RanOut(r, e), "claim_debit_gap",
    Require(r.actualUnits == r.billedUnits == r.debitedUnits, "work_units_mismatch",
    Require(r.generationDebitedUnits <= r.debitedUnits, "generation_units_invalid",
    SessionValueFault(r, e, rest)))))))
  }

  lemma SessionIdentityRefusal(r: Record, e: SessionExpectation, rest: Fault)
    ensures SessionIdentityFault(r, e, rest) ==
            match VerifySessionIdentity(r, e)
            case Pass => rest
            case Fail(code) => Some(code)
  {
  }

  lemma ExhaustionRefusal(r: Record, e: SessionExpectation, rest: Fault)
    ensures ExhaustionFault(r, e, rest) ==
            match CheckExhausted(r, e, Amount(r.billedValueWei))
            case Pass => rest
            case Fail(code) => Some(code)
  {
    AmountsAreRead();
  }

  /** Accounting of a session: the error of the first requirement it fails, or the amount billed. */
  lemma SessionAccountingRefusal(r: Record, e: SessionExpectation, rest: Fault)
    ensures SessionAccountingFault(r, e, rest) ==
            match VerifySessionAccounting(r, e)
            case Ok(_) => rest
            case Err(code) => Some(code)
  {
    AmountsAreRead();
    AuthorizationRefusal(r, e.authorizationId, e.authorizedValueWei, rest);
    ExhaustionRefusal(r, e,
      Require(Amount(r.billedValueWei) <= e.fundedValueWei && Amount(r.fundedValueWei) <= e.fundedValueWei,
              "session_cap_exceeded",
      Require(Amount(r.generationBilledValueWei) <= Amount(r.billedValueWei), "generation_value_invalid",
      AuthorizationFault(r, e.authorizationId, e.authorizedValueWei, rest))));
  }

  /** A diagnostic that is there and not empty. */
  predicate Told(breakdown: map<string, string>, name: string) { name in breakdown && breakdown[name] != "" }

  function TimeOf(lib: Library, r: Record): Result<Instant>
    requires Told(r.breakdown, "output_state_since")
  {
    lib.parseTimestamp(r.breakdown["output_state_since"], "output_state_since")
  }

  function DiagnosticsFault(lib: Library, r: Record, rest: Fault): Fault {
    var b := r.breakdown;
    Require(CodeOrNone(b, "termination_reason"), "termination_reason_invalid",
    Require(Told(b, "output_state") ==> b["output_state"] in {"unknown", "waiting", "producing", "stalled"},
            "output_state_invalid",
    Require(Told(b, "output_state_since") ==> TimeOf(lib, r).Ok?,
            if Told(b, "output_state_since") && TimeOf(lib, r).Err? then TimeOf(lib, r).code else "",
    Require(CodeOrNone(b, "last_failure_code"), "last_failure_code_invalid", rest))))
  }

  lemma DiagnosticsRefusal(lib: Library, r: Record, rest: Fault)
    ensures DiagnosticsFault(lib, r, rest) ==
            match VerifySessionDiagnostics(lib, r)
            case Ok(_) => rest
            case Err(code) => Some(code)
  {
    CodeOrNoneIff(r.breakdown, "termination_reason");
    CodeOrNoneIff(r.breakdown, "last_failure_code");
  }

  function SessionFault(lib: Library, r: Record, e: SessionExpectation): Fault {
    ScopeFault(r, e.wholesaleAccountId, e.settlementDomainId,
    SessionIdentityFault(r, e, SessionAccountingFault(r, e, DiagnosticsFault(lib, r, OutcomeFault(r)))))
  }

  lemma SessionStages(lib: Library, r: Record, t: Instant, key: string, e: SessionExpectation)
    ensures var v := VerifySessionRecord(lib, r, t, key, e);
            var scope := CheckScope(r, e.wholesaleAccountId, e.settlementDomainId);
            (if v.Ok? then None else Some(v.code)) ==
              if scope.Fail? then Some(scope.code)
              else if VerifySessionIdentity(r, e).Fail? then Some(VerifySessionIdentity(r, e).code)
              else if VerifySessionAccounting(r, e).Err? then Some(VerifySessionAccounting(r, e).code)
              else if VerifySessionDiagnostics(lib, r).Err? then Some(VerifySessionDiagnostics(lib, r).code)
              else OutcomeFault(r)
  {
  }

  lemma ScopeRefusal(r: Record, accountId: string, domainId: string, rest: Fault)
    ensures ScopeFault(r, accountId, domainId, rest) ==
            match CheckScope(r, accountId, domainId)
            case Pass => rest
            case Fail(code) => Some(code)
  {
  }

  /** A session record is refused with the error of the first requirement it fails, and accepted if it meets all. */
  lemma SessionRefusedByFirst(lib: Library, r: Record, t: Instant, key: string, e: SessionExpectation)
    ensures var v := VerifySessionRecord(lib, r, t, key, e);
            SessionFault(lib, r, e) == if v.Ok? then None else Some(v.code)
  {
    var last := OutcomeFault(r);
    var diagnostics := DiagnosticsFault(lib, r, last);
    var accounting := SessionAccountingFault(r, e, diagnostics);
    ScopeRefusal(r, e.wholesaleAccountId, e.settlementDomainId, SessionIdentityFault(r, e, accounting));
    SessionIdentityRefusal(r, e, accounting);
    SessionAccountingRefusal(r, e, diagnostics);
    DiagnosticsRefusal(lib, r, last);
    SessionStages(lib, r, t, key, e);
  }

  /** A told entry as it is, and nothing for one that is not. */
  predicate Repeats(reported: Option<string>, breakdown: map<string, string>, name: string) {
    if Told(breakdown, name) then reported == Some(breakdown[name]) else reported == None
  }

  /** What an accepted session reports beside its accounts: the rest of its identity, its outcome and diagnostics. */
  lemma SessionReportsRest(lib: Library, r: Record, t: Instant, key: string, e: SessionExpectation)
    requires VerifySessionRecord(lib, r, t, key, e).Ok?
    ensures var v := VerifySessionRecord(lib, r, t, key, e).value;
            && v.workId == r.workId && v.predecessorWorkId == r.predecessorWorkId
            && v.rotationGeneration == r.rotationGeneration && IsNameOf(v.outcome, r.outcome)
    ensures var d := VerifySessionRecord(lib, r, t, key, e).value.diagnostics;
            && Repeats(d.terminationReason, r.breakdown, "termination_reason")
            && Repeats(d.outputState, r.breakdown, "output_state")
            && Repeats(d.lastFailureCode, r.breakdown, "last_failure_code")
            && (if Told(r.breakdown, "output_state_since")
                then d.outputStateSince.Some? && TimeOf(lib, r) == Ok(d.outputStateSince.value)
                else d.outputStateSince == None)
  {
  }

  // ---- Envelopes ----

  function EnvelopeRefusal(lib: Library, env: Envelope, keys: seq<Delegation>): Option<string> {
    if env.payload == None || env.signature == None then Some("malformed_envelope")
    else
      var payload, sig := env.payload.value, env.signature.value;
      if sig.algorithm != "secp256k1" || sig.canonicalization != "jcs" then Some("unsupported_signature")
      else match lib.canonicalize(payload)
        case Err(code) => Some(code)
        case Ok(canonical) =>
          match lib.recoverKey(canonical, sig.value)
          case Err(code) => Some(code)
          case Ok(key) =>
            match lib.issuedAt(payload)
            case Err(code) => Some(code)
            case Ok(t) =>
              match AuthorizeKey(key, t, keys)
              case Fail(code) => Some(code)
              case Pass => if lib.parseRecord(payload) == None then Some("malformed_payload") else None
  }

  /** An envelope's error is that of its first fault: before anything the record says comes whether it is signed by a
      key that was delegated then. */
  lemma EnvelopeRefusedByFirst(lib: Library, env: Envelope, keys: seq<Delegation>)
    ensures var v := VerifyEnvelope(lib, env, keys);
            EnvelopeRefusal(lib, env, keys) == if v.Ok? then None else Some(v.code)
  {
  }
}
