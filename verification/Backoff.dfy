/** Exponential backoff: the pauses taken, and loops that retry with them. */
module Backoff {
  import opened Results

  function Pow2(n: nat): (p: nat)
    ensures p >= 1
  {
    if n == 0 then 1 else 2 * Pow2(n - 1)
  }

  /** The first `n` pauses, each twice the one before. */
  function Pauses(base: nat, n: nat): (s: seq<nat>)
    ensures |s| == n
  {
    if n == 0 then [] else Pauses(base, n - 1) + [base * Pow2(n - 1)]
  }

  /** Each pause by its place, and the first of them in figures. */
  lemma {:induction false} PauseAt(base: nat, n: nat, i: nat)
    requires i < n
    ensures Pauses(base, n)[i] == if i == 0 then base else 2 * Pauses(base, n)[i - 1]
  {
    if i < n - 1 {
      PauseAt(base, n - 1, i);
    } else if i > 0 {
      assert Pauses(base, n - 1)[i - 1] == base * Pow2(i - 1);
      Doubled(base, Pow2(i - 1));
    }
  }

  lemma Doubled(base: nat, q: nat)
    ensures base * (2 * q) == 2 * (base * q)
  {
  }

  lemma FirstPauses()
    ensures Pauses(500, 3) == [500, 1000, 2000] && Pauses(50, 3) == [50, 100, 200]
  {
    assert Pow2(2) == 4 && Pow2(1) == 2 && Pow2(0) == 1;
    assert Pauses(500, 2) == [500, 1000] && Pauses(50, 2) == [50, 100];
  }

  function Sum(s: seq<nat>): nat {
    if s == [] then 0 else Sum(s[..|s| - 1]) + s[|s| - 1]
  }

  lemma {:induction false} PausesSum(base: nat, n: nat)
    ensures Sum(Pauses(base, n)) == base * (Pow2(n) - 1)
  {
    if n > 0 {
      PausesSum(base, n - 1);
      assert Pauses(base, n)[..n - 1] == Pauses(base, n - 1);
      DoubledLessOne(base, Pow2(n - 1));
    }
  }

  lemma DoubledLessOne(base: nat, q: nat)
    ensures base * (2 * q - 1) == base * (q - 1) + base * q
  {
    assert 2 * q - 1 == (q - 1) + q;
  }

  lemma {:induction false} Pow2Grows(m: nat, n: nat)
    requires m <= n
    ensures Pow2(m) <= Pow2(n)
  {
    if m < n { Pow2Grows(m, n - 1); }
  }

  lemma PausesAtMost(base: nat, m: nat, n: nat)
    requires m <= n
    ensures Sum(Pauses(base, m)) <= base * (Pow2(n) - 1)
  {
    PausesSum(base, m);
    Pow2Grows(m, n);
    Scale(base, Pow2(m) - 1, Pow2(n) - 1);
  }

  lemma Scale(base: nat, a: int, b: int)
    requires a <= b
    ensures base * a <= base * b
  {
  }

  // ---- Sending a telemetry batch ----

  const SEND_PAUSE_MS := 500

  /** The status of a reply; `None` when the request could not be built or sent. */
  type Reply = Option<int>

  /** Any answer ends the loop but a server error or a request to slow down. */
  lemma EndingReplies(n: int)
    ensures !Ends(None) && (Ends(Some(n)) <==> n != 429 && n <= 499)
    ensures Ends(Some(200)) && Ends(Some(404)) && Ends(Some(499)) && !Ends(Some(429)) && !Ends(Some(500))
  {
  }

  predicate Ends(r: Reply) { r.Some? && r.value < 500 && r.value != 429 }

  /** `k` counts the attempts made when the first reply that ends the loop arrives, or all have been made. */
  predicate StopsAfter(replies: nat -> Reply, maxRetries: int, k: nat) {
    && (forall i: nat :: 1 <= i < k ==> !Ends(replies(i)))
    && k <= (if maxRetries < 0 then 0 else maxRetries)
    && ((k >= 1 && Ends(replies(k))) || k == if maxRetries < 0 then 0 else maxRetries)
  }

  method SendWithRetry(replies: nat -> Reply, maxRetries: int) returns (delivered: bool, attempts: nat, slept: seq<nat>)
    ensures StopsAfter(replies, maxRetries, attempts)
    ensures delivered <==> exists i: nat :: 1 <= i <= maxRetries && Ends(replies(i))
    ensures slept == Pauses(500, if attempts == 0 then 0 else attempts - 1)
  {
    var backoff := SEND_PAUSE_MS;
    slept := [];
    attempts := 0;
    var attempt := 1;
    while attempt <= maxRetries
      invariant 1 <= attempt && attempts == attempt - 1 && (attempt <= maxRetries + 1 || attempt == 1)
      invariant forall i: nat :: 1 <= i < attempt ==> !Ends(replies(i))
      invariant backoff == SEND_PAUSE_MS * Pow2(|slept|)
      invariant slept == Pauses(SEND_PAUSE_MS,
                if attempt <= maxRetries || attempt == 1 then attempt - 1 else attempt - 2)
    {
      attempts := attempt;
      if Ends(replies(attempt)) {
        return true, attempts, slept;
      }
      if attempt < maxRetries {
        slept := slept + [backoff];
        backoff := backoff * 2;
      }
      attempt := attempt + 1;
    }
    return false, attempts, slept;
  }

  // ---- Retrying a call to the clearinghouse ----

  const CALL_PAUSE_MS := 500

  /** What one call gives: a value, an answer with an error status, or no answer. */
  datatype Call = Done | Status(status: int) | NoAnswer

  /** A call is worth another when it had no answer, a server error or a request to slow down. */
  lemma TransientCalls(n: int)
    ensures Transient(NoAnswer) && !Transient(Done) && (Transient(Status(n)) <==> n == 429 || n > 499)
    ensures Transient(Status(429)) && Transient(Status(500)) && !Transient(Status(499)) && !Transient(Status(404))
    ensures Allowed(n) == if n <= 0 then 1 else n
  {
  }

  predicate Transient(c: Call) { c.NoAnswer? || (c.Status? && (c.status >= 500 || c.status == 429)) }

  /** What the caller gets: the call that ended the loop, or that it was cancelled while waiting. */
  datatype Settled = Reported(call: Call) | Cancelled

  /** How many attempts are allowed: one at least. */
  function Allowed(maxRetries: int): nat { if maxRetries < 1 then 1 else maxRetries }

  /** `k` attempts are made: every one before it was transient and its pause was not cut short. */
  predicate Makes(calls: nat -> Call, cancelled: nat -> bool, maxRetries: int, k: nat) {
    1 <= k <= Allowed(maxRetries) && forall i: nat :: 1 <= i < k ==> Transient(calls(i)) && !cancelled(i)
  }

  method DoWithRetry(calls: nat -> Call, cancelled: nat -> bool, maxRetries: int)
    returns (r: Settled, attempts: nat, slept: seq<nat>)
    ensures Makes(calls, cancelled, maxRetries, attempts)
    ensures r == if !Transient(calls(attempts)) || attempts == Allowed(maxRetries) then Reported(calls(attempts))
            else Cancelled
    ensures r.Cancelled? ==> cancelled(attempts)
    ensures slept == Pauses(500, attempts - 1)
    ensures r == Reported(Done) <==>
            exists k: nat :: Makes(calls, cancelled, maxRetries, k) && calls(k).Done?
  {
    var limit := Allowed(maxRetries);
    var backoff := CALL_PAUSE_MS;
    slept := [];
    attempts := 1;
    while true
      invariant Makes(calls, cancelled, maxRetries, attempts)
      invariant slept == Pauses(CALL_PAUSE_MS, attempts - 1) && backoff == CALL_PAUSE_MS * Pow2(attempts - 1)
      decreases limit - attempts
    {
      var call := calls(attempts);
      if !Transient(call) || attempts >= limit {
        return Reported(call), attempts, slept;
      }
      if cancelled(attempts) {
        return Cancelled, attempts, slept;
      }
      slept := slept + [backoff];
      backoff := backoff * 2;
      attempts := attempts + 1;
    }
  }

  /** Rust's loop and TypeScript's: neither wait can be cut short, and TypeScript makes no call at all when
      fewer than one is allowed. */
  method RequestWithRetry(calls: nat -> Call, maxRetries: int, atLeastOnce: bool)
    returns (r: Option<Call>, attempts: nat, slept: seq<nat>)
    ensures r.None? <==> !atLeastOnce && maxRetries < 1
    ensures r.None? ==> attempts == 0 && slept == []
    ensures r.Some? ==> Makes(calls, _ => false, maxRetries, attempts) && r.value == calls(attempts)
    ensures r.Some? ==>
            (Transient(r.value) ==> attempts == Allowed(maxRetries)) &&
            slept == Pauses(500, attempts - 1)
    ensures r.Some? ==> (r.value.Done? <==> exists k: nat :: Makes(calls, _ => false, maxRetries, k) && calls(k).Done?)
  {
    var limit := if atLeastOnce && maxRetries < 1 then 1 else maxRetries;
    var backoff := CALL_PAUSE_MS;
    r, slept, attempts := None, [], 0;
    while attempts < limit
      invariant 0 <= attempts && (r.None? <==> attempts == 0) && (attempts > 0 ==> attempts < limit)
      invariant forall i: nat :: 1 <= i <= attempts ==> Transient(calls(i))
      invariant slept == Pauses(CALL_PAUSE_MS, attempts) && backoff == CALL_PAUSE_MS * Pow2(attempts)
    {
      attempts := attempts + 1;
      var call := calls(attempts);
      r := Some(call);
      if !Transient(call) || attempts >= limit {
        return;
      }
      slept := slept + [backoff];
      backoff := backoff * 2;
    }
  }
}
