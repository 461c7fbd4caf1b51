/** Polling a broker until it reports what became of a request. */
module ExchangePolling {
  import opened Results
  import opened Backoff

  const ATTEMPTS := 8
  const BASE_PAUSE_MS := 50
  const STILL_PENDING := "broker_exchange_pending"

  /** One reply: no request or no readable body, a body that is not a JSON object, or an exchange report
      whose request id and outcome are absent or not strings when `None`. */
  datatype Reply =
    | Failed
    | Malformed(status: int)
    | Report(status: int, requestId: Option<string>, outcome: Option<string>)

  datatype Lookup =
    | Found(reply: Reply)
    | TransportError
    | Cancelled
    | ProtocolError(code: string)

  predicate For(r: Reply, requestId: string) {
    r.Report? && (if r.requestId.Some? then r.requestId.value else "") == requestId
  }

  predicate Pending(r: Reply, requestId: string) {
    For(r, requestId) && r.status == 202 && (r.outcome == Some("IN_FLIGHT") || r.outcome == Some("ACCOUNTING_PENDING"))
  }

  predicate IsSettled(r: Reply, requestId: string) {
    For(r, requestId) && r.status == 200 && r.outcome == Some("SETTLED")
  }

  /** What a report says of request `id`, whatever its status and outcome, and what any other reply comes to. */
  lemma ReplyMeaning(id: string, other: Option<string>, status: int, outcome: Option<string>)
    requires other != Some(id) && (id == "" ==> other.Some?)
    ensures var r := Report(status, Some(id), outcome);
            && (Pending(r, id) <==>
                  status == 202 && (outcome == Some("IN_FLIGHT") || outcome == Some("ACCOUNTING_PENDING")))
            && (IsSettled(r, id) <==> status == 200 && outcome == Some("SETTLED"))
            && (Pending(r, id) ==> Refusal(r, id) == ProtocolError("broker_exchange_pending"))
            && (!Pending(r, id) ==> Refusal(r, id) == ProtocolError("broker_exchange_unresolved"))
    ensures var r := Report(status, other, outcome);
            !Pending(r, id) && !IsSettled(r, id) && Refusal(r, id) == ProtocolError("broker_request_id_mismatch")
    ensures Refusal(Failed, id) == TransportError
    ensures Refusal(Malformed(status), id) == ProtocolError("broker_protocol_error")
    ensures forall r :: r in {Failed, Malformed(status)} ==> !Pending(r, id) && !IsSettled(r, id)
    ensures For(Report(status, None, outcome), "")
  {
  }

  /** The `k`th reply is asked for: each before it was pending, and the wait after it ran its course. */
  predicate Reaches(replies: nat -> Reply, cancelled: nat -> bool, requestId: string, k: nat) {
    k < 8 && forall i: nat :: i < k ==> Pending(replies(i), requestId) && !cancelled(i)
  }

  function Refusal(r: Reply, requestId: string): Lookup {
    match r
    case Failed => TransportError
    case Malformed(_) => ProtocolError("broker_protocol_error")
    case Report(_, _, _) =>
      if !For(r, requestId) then ProtocolError("broker_request_id_mismatch")
      else if Pending(r, requestId) then ProtocolError(STILL_PENDING)
      else ProtocolError("broker_exchange_unresolved")
  }

  /** Whatever the broker replies: at most 8 requests and 6350 ms of waiting, and success exactly when the
      first reply that is not pending, within the 8, settles the request. */
  method LookupExchange(replies: nat -> Reply, cancelled: nat -> bool, requestId: string)
    returns (result: Lookup, requests: nat, slept: seq<nat>)
    ensures 1 <= requests <= 8 && Reaches(replies, cancelled, requestId, requests - 1)
    ensures slept == Pauses(50, requests - 1) && Sum(slept) <= 50 * (Pow2(7) - 1) == 6350
    ensures result.Found? <==>
            exists k: nat :: Reaches(replies, cancelled, requestId, k) && IsSettled(replies(k), requestId)
    ensures result.Found? ==> result.reply == replies(requests - 1) && IsSettled(result.reply, requestId)
    ensures result.Cancelled? ==>
            requests < ATTEMPTS && cancelled(requests - 1) &&
            Pending(replies(requests - 1), requestId)
    ensures !result.Found? && !result.Cancelled? && Pending(replies(requests - 1), requestId) ==> requests == 8
    ensures !result.Found? && !result.Cancelled? ==> result == Refusal(replies(requests - 1), requestId)
  {
    slept := [];
    requests := 0;
    while true
      invariant Reaches(replies, cancelled, requestId, requests)
      invariant slept == Pauses(BASE_PAUSE_MS, requests)
      decreases ATTEMPTS - requests
    {
      var attempt, r := requests, replies(requests);
      requests := requests + 1;
      result := ReadReply(r, requestId);
      if result != ProtocolError(STILL_PENDING) || attempt == ATTEMPTS - 1 {
        break;
      }
      if cancelled(attempt) {
        result := Lookup.Cancelled;
        break;
      }
      slept := slept + [BASE_PAUSE_MS * Pow2(attempt)];
    }
    StopsHere(replies, cancelled, requestId, requests - 1);
    WaitsBriefly(requests - 1);
  }

  /** What one reply says: that it settles the request, why it does not, or that it is pending. */
  method ReadReply(r: Reply, requestId: string) returns (result: Lookup)
    ensures result == if IsSettled(r, requestId) then Found(r) else Refusal(r, requestId)
    ensures result == ProtocolError(STILL_PENDING) <==> Pending(r, requestId)
  {
    match r
    case Failed => return TransportError;
    case Malformed(_) => return ProtocolError("broker_protocol_error");
    case Report(status, id, outcome) =>
      if (if id.Some? then id.value else "") != requestId {
        return ProtocolError("broker_request_id_mismatch");
      }
      if status == 202 && (outcome == Some("IN_FLIGHT") || outcome == Some("ACCOUNTING_PENDING")) {
        return ProtocolError(STILL_PENDING);
      }
      if status != 200 || outcome != Some("SETTLED") {
        return ProtocolError("broker_exchange_unresolved");
      }
      return Found(r);
  }

  /** Polling that stops at the `n`th reply settles the request there or not at all. */
  lemma StopsHere(replies: nat -> Reply, cancelled: nat -> bool, requestId: string, n: nat)
    requires Reaches(replies, cancelled, requestId, n)
    requires n == ATTEMPTS - 1 || !Pending(replies(n), requestId) || cancelled(n)
    ensures IsSettled(replies(n), requestId) <==>
            exists k: nat :: Reaches(replies, cancelled, requestId, k) && IsSettled(replies(k), requestId)
  {
    if k: nat :| Reaches(replies, cancelled, requestId, k) && IsSettled(replies(k), requestId) {
      assert k <= n;
      assert !Pending(replies(k), requestId);
    }
  }

  lemma WaitsBriefly(k: nat)
    requires k < ATTEMPTS
    ensures Sum(Pauses(BASE_PAUSE_MS, k)) <= 50 * (Pow2(7) - 1) == 6350
  {
    PausesAtMost(BASE_PAUSE_MS, k, 7);
    assert Pow2(3) == 8 && Pow2(5) == 4 * Pow2(3);
  }
}
