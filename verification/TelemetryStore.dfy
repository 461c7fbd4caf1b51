/** The telemetry buffer that every SDK keeps, next to the whole history of what went through it. */
module TelemetryStore {
  import opened Results

  /** An event; `content` is everything but its type. */
  datatype Event = Event(eventType: string, content: string)

  predicate EndsWith(s: string, suffix: string) {
    |suffix| <= |s| && s[|s| - |suffix|..] == suffix
  }

  predicate IsCritical(e: Event) {
    e.eventType in {"session.refill_denied", "session.closed"} || EndsWith(e.eventType, ".error")
  }

  /** The two types and the one ending that do not wait. */
  predicate DoesNotWait(eventType: string) {
    || eventType == "session.refill_denied" || eventType == "session.closed"
    || (|eventType| >= 6 && eventType[|eventType| - 6..] == ".error")
  }

  lemma CriticalTypes(e: Event)
    ensures IsCritical(e) <==> DoesNotWait(e.eventType)
  {
    assert |".error"| == 6;
  }

  /** `epochs[i]` is what was accepted before hand-off `i` and after the one before; `batches[i]` is what
      that hand-off took. */
  datatype History = History(
    epochs: seq<seq<Event>>, batches: seq<seq<Event>>, current: seq<Event>, closing: Option<Closing>)

  /** What the buffer held, and how many batches had been taken, when the emitter was marked closed. */
  datatype Closing = Closing(left: seq<Event>, batches: nat)

  datatype Store = Store(cap: nat, buffer: seq<Event>, dropped: nat, closed: bool, history: History)

  function Empty(cap: nat): Store {
    Store(cap, [], 0, false, History([], [], [], None))
  }

  // ---- The three things that happen to a store ----

  function WithoutOldest(buffer: seq<Event>): seq<Event> {
    if buffer == [] then [] else buffer[1..]
  }

  function Accept(s: Store, e: Event): Store {
    if s.closed then s
    else
      var full := |s.buffer| == s.cap;
      s.(buffer := (if full then WithoutOldest(s.buffer) else s.buffer) + [e],
         dropped := if full then s.dropped + 1 else s.dropped,
         history := s.history.(current := s.history.current + [e]))
  }

  function HandOff(s: Store): Store {
    if s.buffer == [] then s
    else
      var h := s.history;
      s.(buffer := [],
         history := h.(epochs := h.epochs + [h.current], batches := h.batches + [s.buffer], current := []))
  }

  function MarkClosed(s: Store): Store {
    if s.closed then s
    else s.(closed := true, history := s.history.(closing := Some(Closing(s.buffer, |s.history.batches|))))
  }

  datatype Op = Put(event: Event) | Take | Shut

  function Apply(s: Store, op: Op): Store {
    match op
    case Put(e) => Accept(s, e)
    case Take => HandOff(s)
    case Shut => MarkClosed(s)
  }

  function Run(s: Store, ops: seq<Op>): Store {
    if ops == [] then s else Apply(Run(s, ops[..|ops| - 1]), ops[|ops| - 1])
  }

  // ---- The store against its history ----

  function Flat(parts: seq<seq<Event>>): seq<Event> {
    if parts == [] then [] else Flat(parts[..|parts| - 1]) + parts[|parts| - 1]
  }

  /** The last `min(|s|, k)` events of `s`. */
  function Suffix(s: seq<Event>, k: nat): seq<Event> {
    if |s| <= k then s else s[|s| - k..]
  }

  function Accepted(s: Store): seq<Event> { Flat(s.history.epochs) + s.history.current }

  function Kept(s: Store): seq<Event> { Flat(s.history.batches) + s.buffer }

  /** The buffer and each batch are exactly the newest events of their epoch, as many as fit. */
  ghost predicate HoldsNewest(s: Store) {
    && s.buffer == Suffix(s.history.current, s.cap)
    && |s.history.epochs| == |s.history.batches|
    && forall i :: 0 <= i < |s.history.batches| ==> s.history.batches[i] == Suffix(s.history.epochs[i], s.cap)
  }

  predicate Subsequence(s: seq<Event>, t: seq<Event>) {
    s == [] || (t != [] && ((s[0] == t[0] && Subsequence(s[1..], t[1..])) || Subsequence(s, t[1..])))
  }

  /** Batches then buffer are the accepted events in order, with exactly `dropped` of them left out. */
  ghost predicate Conserves(s: Store) {
    Subsequence(Kept(s), Accepted(s)) && |Accepted(s)| == |Kept(s)| + s.dropped
  }

  /** Nothing is accepted once closed; what was left then is handed off before anything else could be. */
  ghost predicate DrainsOnly(s: Store) {
    match s.history.closing
    case None => !s.closed
    case Some(c) =>
      && s.closed && c.batches <= |s.history.batches|
      && Flat(s.history.batches[c.batches..]) + s.buffer == c.left
  }

  /** All that was in the buffer when the emitter was marked closed is in the batches taken since, which hold
      nothing else. */
  predicate Drained(s: Store) {
    && s.closed && s.buffer == [] && s.history.closing.Some?
    && s.history.closing.value.batches <= |s.history.batches|
    && Flat(s.history.batches[s.history.closing.value.batches..]) == s.history.closing.value.left
  }

  ghost predicate Consistent(s: Store) { HoldsNewest(s) && Conserves(s) && DrainsOnly(s) }

  // ---- Proofs ----

  lemma {:induction false} SubsequenceOfSelf(t: seq<Event>)
    ensures Subsequence(t, t)
  {
    if t != [] { SubsequenceOfSelf(t[1..]); }
  }

  lemma {:induction false} SubsequenceAppend(s: seq<Event>, t: seq<Event>, u: seq<Event>, v: seq<Event>)
    requires Subsequence(s, t) && Subsequence(u, v)
    ensures Subsequence(s + u, t + v)
    decreases |t|
  {
    if t == [] {
      assert s + u == u && t + v == v;
    } else {
      assert (t + v)[1..] == t[1..] + v;
      if s != [] && s[0] == t[0] && Subsequence(s[1..], t[1..]) {
        SubsequenceAppend(s[1..], t[1..], u, v);
        assert (s + u)[1..] == s[1..] + u;
      } else {
        SubsequenceAppend(s, t[1..], u, v);
      }
    }
  }

  lemma {:induction false} SuffixIsSubsequence(t: seq<Event>, i: nat)
    requires i <= |t|
    ensures Subsequence(t[i..], t)
    decreases i
  {
    if i == 0 {
      SubsequenceOfSelf(t);
    } else {
      SuffixIsSubsequence(t[1..], i - 1);
      assert t[1..][i - 1..] == t[i..];
    }
  }

  lemma FlatAppend(parts: seq<seq<Event>>, last: seq<Event>)
    ensures Flat(parts + [last]) == Flat(parts) + last
  {
    assert (parts + [last])[..|parts|] == parts;
  }

  lemma AcceptHoldsNewest(s: Store, e: Event)
    requires s.cap >= 1 && HoldsNewest(s)
    ensures HoldsNewest(Accept(s, e))
  {
  }

  /** The newest events of every epoch, in order, are a subsequence of all of them. */
  lemma {:induction false} NewestAreSubsequence(epochs: seq<seq<Event>>, batches: seq<seq<Event>>, cap: nat)
    requires |epochs| == |batches| && forall i :: 0 <= i < |batches| ==> batches[i] == Suffix(epochs[i], cap)
    ensures Subsequence(Flat(batches), Flat(epochs))
  {
    if epochs != [] {
      var n := |epochs| - 1;
      NewestAreSubsequence(epochs[..n], batches[..n], cap);
      LastOfEpoch(epochs[n], cap);
      SubsequenceAppend(Flat(batches[..n]), Flat(epochs[..n]), batches[n], epochs[n]);
    }
  }

  lemma LastOfEpoch(epoch: seq<Event>, cap: nat)
    ensures Subsequence(Suffix(epoch, cap), epoch)
  {
    SuffixIsSubsequence(epoch, if |epoch| <= cap then 0 else |epoch| - cap);
  }

  lemma NewestIsOrdered(s: Store)
    requires HoldsNewest(s)
    ensures Subsequence(Kept(s), Accepted(s))
  {
    NewestAreSubsequence(s.history.epochs, s.history.batches, s.cap);
    LastOfEpoch(s.history.current, s.cap);
    SubsequenceAppend(Flat(s.history.batches), Flat(s.history.epochs), s.buffer, s.history.current);
  }

  lemma AcceptConsistent(s: Store, e: Event)
    requires s.cap >= 1 && Consistent(s)
    ensures Consistent(Accept(s, e))
  {
    AcceptHoldsNewest(s, e);
    NewestIsOrdered(Accept(s, e));
  }

  lemma HandOffConsistent(s: Store)
    requires Consistent(s)
    ensures Consistent(HandOff(s))
  {
    if s.buffer != [] {
      var h, t := s.history, HandOff(s);
      FlatAppend(h.epochs, h.current);
      FlatAppend(h.batches, s.buffer);
      NewestIsOrdered(t);
      if h.closing.Some? {
        var k := h.closing.value.batches;
        assert t.history.batches[k..] == h.batches[k..] + [s.buffer];
        FlatAppend(h.batches[k..], s.buffer);
      }
    }
  }

  lemma MarkClosedConsistent(s: Store)
    requires Consistent(s)
    ensures Consistent(MarkClosed(s))
  {
    var t := MarkClosed(s);
    assert s.history.batches[|s.history.batches|..] == [];
    assert [] + s.buffer == s.buffer;
  }

  lemma ApplyConsistent(s: Store, op: Op)
    requires s.cap >= 1 && Consistent(s)
    ensures Consistent(Apply(s, op)) && Apply(s, op).cap == s.cap
  {
    match op
    case Put(e) => AcceptConsistent(s, e);
    case Take => HandOffConsistent(s);
    case Shut => MarkClosedConsistent(s);
  }

  /** Whatever the order of emits, hand-offs and closing. */
  lemma {:induction false} RunConsistent(cap: nat, ops: seq<Op>)
    requires cap >= 1
    ensures Consistent(Run(Empty(cap), ops)) && Run(Empty(cap), ops).cap == cap
  {
    if ops != [] {
      RunConsistent(cap, ops[..|ops| - 1]);
      ApplyConsistent(Run(Empty(cap), ops[..|ops| - 1]), ops[|ops| - 1]);
    }
  }

  ghost predicate AlwaysConsistent(cap: nat) {
    forall ops: seq<Op> :: Consistent(Run(Empty(cap), ops))
  }

  /** Without room for one event the count of dropped events is wrong at once; with room it never is. */
  lemma ConsistentIffRoom(cap: nat)
    ensures AlwaysConsistent(cap) <==> cap >= 1
  {
    if cap >= 1 {
      forall ops: seq<Op> ensures Consistent(Run(Empty(cap), ops)) { RunConsistent(cap, ops); }
    } else {
      NoRoomMiscounts([Put(Event("job.settled", ""))]);
    }
  }

  lemma NoRoomMiscounts(ops: seq<Op>)
    requires |ops| == 1 && ops[0].Put?
    ensures !Consistent(Run(Empty(0), ops))
  {
    assert Run(Empty(0), ops[..0]) == Empty(0) by { assert ops[..0] == []; }
    var s := Run(Empty(0), ops);
    assert s == Accept(Empty(0), ops[0].event);
    assert s.dropped == 1 && |s.buffer| == 1 && |Accepted(s)| == 1;
  }
}
