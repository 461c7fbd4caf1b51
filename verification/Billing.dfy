/** The ceiling bill curve and what sums of bills along it come to. */
module Billing {
  import opened Results

  /** The bill for `units` at `amount` wei per `per` units. */
  function Bill(units: int, amount: int, per: int): Result<int> {
    if units < 0 || amount < 0 || per <= 0 then Err("invalid_pricing")
    else Ok((units * amount + per - 1) / per)
  }

  /** A price the curve is defined for. */
  datatype Price = Price(amount: nat, per: nat)

  predicate IsPrice(p: Price) { p.per > 0 }

  /** The curve at a valid price. */
  function Charge(units: nat, p: Price): int
    requires IsPrice(p)
  {
    Bill(units, p.amount, p.per).value
  }

  /** The bill is the smallest amount that pays for the units. */
  lemma BillIsLeast(units: nat, p: Price, w: int)
    requires IsPrice(p)
    ensures Charge(units, p) >= 0
    ensures Charge(units, p) <= w <==> units * p.amount <= w * p.per
  {
    var x, q := units * p.amount, Charge(units, p);
    CeilingBounds(x, p.per);
    if q <= w {
      Scale(q, w, p.per);
    } else {
      Scale(w, q - 1, p.per);
    }
    if q < 0 { Scale(q, -1, p.per); }
  }

  lemma CeilingBounds(x: nat, per: nat)
    requires per > 0
    ensures var q := (x + per - 1) / per; (q - 1) * per < x <= q * per
  {
    var q := (x + per - 1) / per;
    assert x + per - 1 == q * per + (x + per - 1) % per;
    assert (q - 1) * per == q * per - per;
  }

  lemma Scale(a: int, b: int, per: nat)
    requires a <= b
    ensures a * per <= b * per
  {
  }

  lemma ChargeOfNothing(p: Price)
    requires IsPrice(p)
    ensures Charge(0, p) == 0
  {
    BillIsLeast(0, p, 0);
  }

  lemma ChargeGrows(u: nat, v: nat, p: Price)
    requires IsPrice(p) && u <= v
    ensures Charge(u, p) <= Charge(v, p)
  {
    var w := Charge(v, p);
    BillIsLeast(v, p, w);
    assert u * p.amount <= v * p.amount;
    BillIsLeast(u, p, w);
  }

  /** Billing two lots apart costs as much as together, or one wei more. */
  lemma ChargeSplits(u: nat, v: nat, p: Price)
    requires IsPrice(p)
    ensures Charge(u + v, p) <= Charge(u, p) + Charge(v, p) <= Charge(u + v, p) + 1
  {
    var a, b, c := Charge(u, p), Charge(v, p), Charge(u + v, p);
    var x, y := u * p.amount, v * p.amount;
    assert (u + v) * p.amount == x + y;
    BillIsLeast(u, p, a); BillIsLeast(v, p, b);
    assert (a + b) * p.per == a * p.per + b * p.per;
    BillIsLeast(u + v, p, a + b);
    CeilingBounds(x, p.per); CeilingBounds(y, p.per);
    assert (a - 1 + (b - 1)) * p.per == (a - 1) * p.per + (b - 1) * p.per;
    BillIsLeast(u + v, p, a - 1 + (b - 1));
  }

  // ---- Lots billed on their own ----

  function Total(lots: seq<nat>): nat {
    if lots == [] then 0 else lots[0] + Total(lots[1..])
  }

  function ChargedApart(lots: seq<nat>, p: Price): int
    requires IsPrice(p)
  {
    if lots == [] then 0 else Charge(lots[0], p) + ChargedApart(lots[1..], p)
  }

  /** Each lot after the first can add at most one wei of rounding. */
  lemma {:induction false} RoundingBound(lots: seq<nat>, p: Price)
    requires IsPrice(p) && lots != []
    ensures Charge(Total(lots), p) <= ChargedApart(lots, p) <= Charge(Total(lots), p) + |lots| - 1
  {
    if |lots| == 1 {
      assert Total(lots) == lots[0] + Total(lots[1..]);
      assert ChargedApart(lots, p) == Charge(lots[0], p) + ChargedApart(lots[1..], p);
    } else {
      RoundingBound(lots[1..], p);
      ChargeSplits(lots[0], Total(lots[1..]), p);
    }
  }

  function Ones(n: nat): seq<nat> { if n == 0 then [] else [1] + Ones(n - 1) }

  lemma {:induction false} OnesTotal(n: nat, p: Price)
    requires IsPrice(p)
    ensures |Ones(n)| == n && Total(Ones(n)) == n && ChargedApart(Ones(n), p) == n * Charge(1, p)
  {
    if n > 0 {
      OnesTotal(n - 1, p);
      assert Ones(n)[1..] == Ones(n - 1);
    }
  }

  /** The bound is reached for every number of lots: `n` single units at one wei per `n` units. */
  lemma RoundingBoundIsTight(n: nat)
    requires n >= 1
    ensures var p := Price(1, n);
            ChargedApart(Ones(n), p) == Charge(Total(Ones(n)), p) + |Ones(n)| - 1
  {
    var p := Price(1, n);
    OnesTotal(n, p);
    BillIsLeast(n, p, 1); BillIsLeast(n, p, 0);
    BillIsLeast(1, p, 1); BillIsLeast(1, p, 0);
  }

  // ---- Lots billed as steps along the curve ----

  /** The units `lo <= x < hi`. */
  datatype Span = Span(lo: nat, hi: nat)

  predicate IsSpan(s: Span) { s.lo <= s.hi }

  function Step(s: Span, p: Price): int
    requires IsPrice(p)
  {
    Charge(s.hi, p) - Charge(s.lo, p)
  }

  function ChargedInSteps(spans: seq<Span>, p: Price): int
    requires IsPrice(p)
  {
    if spans == [] then 0 else Step(spans[0], p) + ChargedInSteps(spans[1..], p)
  }

  function Holds(s: Span, x: nat): nat {
    if s.lo <= x < s.hi then 1 else 0
  }

  /** How many of the spans hold unit `x`. */
  function Cover(spans: seq<Span>, x: nat): nat {
    if spans == [] then 0 else Holds(spans[0], x) + Cover(spans[1..], x)
  }

  /** The spans split the first `n` units among them, in whatever order they are listed. */
  ghost predicate Tile(spans: seq<Span>, n: nat) {
    && (forall i :: 0 <= i < |spans| ==> IsSpan(spans[i]))
    && (forall x: nat :: Cover(spans, x) == if x < n then 1 else 0)
  }

  /** What the curve charges for unit `x` alone. */
  function UnitCharge(x: nat, p: Price): int
    requires IsPrice(p)
  {
    Charge(x + 1, p) - Charge(x, p)
  }

  /** The units below `m`, each charged as often as it is covered. */
  function CoveredCharge(spans: seq<Span>, m: nat, p: Price): int
    requires IsPrice(p)
  {
    if m == 0 then 0 else CoveredCharge(spans, m - 1, p) + Cover(spans, m - 1) * UnitCharge(m - 1, p)
  }

  /** What the units of `s` below `m` come to along the curve. */
  function ChargeBelow(s: Span, m: nat, p: Price): int
    requires IsPrice(p)
  {
    if m <= s.lo then 0 else Charge(if m < s.hi then m else s.hi, p) - Charge(s.lo, p)
  }

  lemma ChargeBelowGrows(s: Span, m: nat, p: Price)
    requires IsPrice(p) && IsSpan(s)
    ensures ChargeBelow(s, m + 1, p) == ChargeBelow(s, m, p) + if s.lo <= m < s.hi then UnitCharge(m, p) else 0
  {
  }

  lemma {:induction false} CoveredChargeOfOne(s: Span, rest: seq<Span>, m: nat, p: Price)
    requires IsPrice(p) && IsSpan(s)
    ensures CoveredCharge([s] + rest, m, p) == CoveredCharge(rest, m, p) + ChargeBelow(s, m, p)
  {
    if m > 0 {
      CoveredChargeOfOne(s, rest, m - 1, p);
      ChargeBelowGrows(s, m - 1, p);
      CoverOfOne(s, rest, m - 1, UnitCharge(m - 1, p));
    }
  }

  lemma CoverOfOne(s: Span, rest: seq<Span>, x: nat, d: int)
    ensures Cover([s] + rest, x) * d == Cover(rest, x) * d + if s.lo <= x < s.hi then d else 0
  {
    assert ([s] + rest)[1..] == rest;
    var c := Cover(rest, x);
    assert (1 + c) * d == d + c * d;
  }

  lemma {:induction false} StepsAreCoveredCharge(spans: seq<Span>, m: nat, p: Price)
    requires IsPrice(p)
    requires forall i :: 0 <= i < |spans| ==> IsSpan(spans[i]) && spans[i].hi <= m
    ensures ChargedInSteps(spans, p) == CoveredCharge(spans, m, p)
  {
    if spans == [] {
      NothingCovered(m, p);
    } else {
      StepsAreCoveredCharge(spans[1..], m, p);
      CoveredChargeOfOne(spans[0], spans[1..], m, p);
      assert [spans[0]] + spans[1..] == spans;
    }
  }

  lemma {:induction false} NothingCovered(m: nat, p: Price)
    requires IsPrice(p)
    ensures CoveredCharge([], m, p) == 0
  {
    if m > 0 { NothingCovered(m - 1, p); }
  }

  lemma {:induction false} TileCharge(spans: seq<Span>, n: nat, m: nat, p: Price)
    requires IsPrice(p) && Tile(spans, n)
    ensures CoveredCharge(spans, m, p) == Charge(if m < n then m else n, p)
  {
    ChargeOfNothing(p);
    if m > 0 { TileCharge(spans, n, m - 1, p); }
  }

  function Furthest(spans: seq<Span>): (m: nat)
    ensures forall i :: 0 <= i < |spans| ==> spans[i].hi <= m
  {
    if spans == [] then 0
    else var m := Furthest(spans[1..]); if spans[0].hi > m then spans[0].hi else m
  }

  /** Spans that tile the first `n` units are charged, in any order, exactly the bill for `n` units. */
  lemma StepsTelescope(spans: seq<Span>, n: nat, p: Price)
    requires IsPrice(p) && Tile(spans, n)
    ensures ChargedInSteps(spans, p) == Charge(n, p)
  {
    var m := if Furthest(spans) > n then Furthest(spans) else n;
    StepsAreCoveredCharge(spans, m, p);
    TileCharge(spans, n, m, p);
  }

  /** A step never costs more than its units would on their own. */
  lemma StepAtMostCharge(s: Span, p: Price)
    requires IsPrice(p) && IsSpan(s)
    ensures 0 <= Step(s, p) <= Charge(s.hi - s.lo, p)
  {
    ChargeSplits(s.lo, s.hi - s.lo, p);
    ChargeGrows(s.lo, s.hi, p);
  }
}
