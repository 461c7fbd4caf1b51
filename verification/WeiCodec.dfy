/** Wei amounts on the wire: printed by the gateway in Python, read by the Go, TypeScript and Rust SDKs. */
module WeiCodec {
  import opened Results
  import opened Decimals

  // ---- Python: decimals and the wire string ----

  /** A `decimal.Decimal`: `(-1)^negative * coefficient * 10^exponent`, an infinity or a NaN. */
  datatype Decimal =
    | Finite(negative: bool, coefficient: nat, exponent: int)
    | Infinite(negative: bool)
    | NotANumber(signaling: bool)

  /** A value offered for a wei field; `Text` holds what `Decimal` makes of the stripped text, if anything,
      and `Float` its value when it is whole. */
  datatype Inbound =
    | Boolean | Integer(n: int) | Exact(d: Decimal) | Text(parsed: Option<Decimal>) | Float(whole: Option<int>) | Other

  predicate IsWhole(d: Decimal) {
    d.Finite? && (d.exponent >= 0 || d.coefficient % Pow10(-d.exponent) == 0)
  }

  /** `int(d)`: cut towards zero. */
  function Truncated(d: Decimal): int
    requires d.Finite?
  {
    var magnitude := if d.exponent >= 0 then d.coefficient * Pow10(d.exponent) else d.coefficient / Pow10(-d.exponent);
    if d.negative then -magnitude else magnitude
  }

  function ToDecimal(n: int): Decimal {
    Finite(n < 0, if n < 0 then -n else n, 0)
  }

  function ToWeiDecimal(v: Inbound): Result<Decimal> {
    match v
    case Boolean => Err("boolean")
    case Exact(d) => Ok(d)
    case Integer(n) => Ok(ToDecimal(n))
    case Text(None) => Err("not_an_integer")
    case Text(Some(NotANumber(signaling))) => Err(if signaling then "InvalidOperation" else "not_whole")
    case Text(Some(d)) => if d.Infinite? || IsWhole(d) then Ok(d) else Err("not_whole")
    case Float(None) => Err("not_whole")
    case Float(Some(n)) => Ok(ToDecimal(n))
    case Other => Err("not_an_integer")
  }

  function Magnitude(n: int): nat { if n < 0 then -n else n }

  function Signed(n: int): string {
    if n < 0 then "-" + Numeral(-n) else Numeral(n)
  }

  /** `str(n)`: the interpreter refuses more digits than its limit; a limit of 0 is none. */
  function PythonStr(n: int, limit: nat): Result<string> {
    if limit > 0 && |Numeral(Magnitude(n))| > limit then Err("ValueError") else Ok(Signed(n))
  }

  function WeiToWire(d: Decimal, limit: nat): Result<string> {
    match d
    case Finite(_, _, _) => PythonStr(Truncated(d), limit)
    case Infinite(_) => Err("OverflowError")
    case NotANumber(_) => Err("ValueError")
  }

  // ---- The three readers ----

  function Unsign(s: string): string { if s != [] && s[0] in {'-', '+'} then s[1..] else s }

  /** What an optional sign and digits stand for. */
  function SignedValue(s: string): int
    requires AllDigits(Unsign(s))
  {
    var n: int := ValueOf(Unsign(s));
    if s != [] && s[0] == '-' then -n else n
  }

  function GoParse(s: string): Option<int> {
    if s in {"", "-", "+"} || !AllDigits(Unsign(s)) then None else Some(SignedValue(s))
  }

  /** The scan as Go runs it. */
  method ParseWeiDigits(s: string) returns (r: Option<int>)
    ensures r == GoParse(s)
  {
    if s == "" || s == "-" || s == "+" {
      return None;
    }
    var digits := s;
    if digits[0] == '-' || digits[0] == '+' {
      digits := digits[1..];
    }
    for i := 0 to |digits|
      invariant AllDigits(digits[..i])
    {
      if digits[i] < '0' || digits[i] > '9' {
        assert !AllDigits(digits);
        return None;
      }
    }
    assert digits[..|digits|] == digits;
    return Some(SignedValue(s));
  }

  /** An optional minus and at least one digit. */
  function TypeScriptParse(s: string): Option<int> {
    var digits := if s != [] && s[0] == '-' then s[1..] else s;
    if digits == [] || !AllDigits(digits) then None
    else
      var n: int := ValueOf(digits);
      Some(if s[0] == '-' then -n else n)
  }

  const U128_END := 0x1_0000_0000_0000_0000_0000_0000_0000_0000

  /** Digit by digit, giving up as soon as the value does not fit. */
  function CheckedU128(s: string): Option<nat>
    requires AllDigits(s)
  {
    if s == [] then Some(0)
    else
      match CheckedU128(s[..|s| - 1])
      case None => None
      case Some(v) =>
        var next := 10 * v + DigitValue(s[|s| - 1]);
        if next < U128_END then Some(next) else None
  }

  function RustParse(s: string): Option<nat> {
    if s == [] || !AllDigits(s) then None else CheckedU128(s)
  }

  lemma {:induction false} CheckedMeansFits(s: string)
    requires AllDigits(s)
    ensures CheckedU128(s) == if ValueOf(s) < U128_END then Some(ValueOf(s)) else None
  {
    if s != [] { CheckedMeansFits(s[..|s| - 1]); }
  }

  /** The bound of Rust's reader is 2^128: its largest number is read, and the next is not. */
  lemma LargestU128()
    ensures U128_END == 0x1_0000_0000_0000_0000 * 0x1_0000_0000_0000_0000
    ensures RustParse(Numeral(340_282_366_920_938_463_463_374_607_431_768_211_455)).Some?
    ensures RustParse(Numeral(340_282_366_920_938_463_463_374_607_431_768_211_456)).None?
  {
    UnsignedReadsBack(340_282_366_920_938_463_463_374_607_431_768_211_455);
    UnsignedReadsBack(340_282_366_920_938_463_463_374_607_431_768_211_456);
  }

  /** The readers agree wherever they read: each takes what the next does, less a sign or a size. */
  lemma ReadersAgree(s: string)
    ensures TypeScriptParse(s) == (if s != [] && s[0] == '+' then None else GoParse(s))
    ensures RustParse(s).Some? <==>
            TypeScriptParse(s).Some? && s[0] != '-' && TypeScriptParse(s).value < U128_END
    ensures RustParse(s).Some? ==> GoParse(s) == Some(RustParse(s).value)
  {
    if s != [] && AllDigits(s) {
      CheckedMeansFits(s);
      assert IsDigit(s[0]);
    }
    if s != [] && s[0] in {'-', '+'} {
      assert !AllDigits(s) by { assert !IsDigit(s[0]); }
      assert |s| == 1 ==> s == [s[0]];
    }
  }

  lemma UnsignedReadsBack(m: nat)
    ensures var s := Numeral(m); AllDigits(s) && s != [] && IsDigit(s[0]) && ValueOf(s) == m
    ensures RustParse(Numeral(m)) == if m < U128_END then Some(m) else None
  {
    NumeralRoundTrip(m);
    CheckedMeansFits(Numeral(m));
  }

  lemma MinusIsRead(t: string, m: int)
    requires t != [] && AllDigits(t) && ValueOf(t) == m
    ensures GoParse("-" + t) == Some(-m)
  {
    var s := "-" + t;
    assert s[0] == '-' && s[1..] == t && |s| >= 2;
  }

  lemma MinusIsReadByScript(t: string, m: int)
    requires t != [] && AllDigits(t) && ValueOf(t) == m
    ensures TypeScriptParse("-" + t) == Some(-m)
  {
    var s := "-" + t;
    assert s[0] == '-' && s[1..] == t;
  }

  lemma NegativeReadsBack(n: int)
    requires n < 0
    ensures GoParse("-" + Numeral(-n)) == Some(n) && TypeScriptParse("-" + Numeral(-n)) == Some(n)
    ensures RustParse("-" + Numeral(-n)) == None
  {
    NumeralRoundTrip(-n);
    MinusIsRead(Numeral(-n), -n);
    MinusIsReadByScript(Numeral(-n), -n);
    assert !AllDigits("-" + Numeral(-n)) by { assert !IsDigit(("-" + Numeral(-n))[0]); }
  }

  lemma SignedReadsBack(n: int)
    ensures GoParse(Signed(n)) == Some(n) && TypeScriptParse(Signed(n)) == Some(n)
    ensures RustParse(Signed(n)) == if 0 <= n < U128_END then Some(n) else None
  {
    if n < 0 { NegativeReadsBack(n); } else { UnsignedReadsBack(n); }
  }

  /** A sign counts once, at the front; zeros in front do not count; nothing else is read. */
  lemma SpellingsRead()
    ensures GoParse("7") == Some(7) && GoParse("+7") == Some(7)
    ensures GoParse("-7") == Some(-7) && GoParse("007") == Some(7)
    ensures GoParse("-0") == Some(0) && TypeScriptParse("-0") == Some(0) && TypeScriptParse("007") == Some(7)
    ensures GoParse("") == None && GoParse("-") == None && GoParse("+-7") == None && GoParse("7 ") == None
    ensures TypeScriptParse("+7") == None && TypeScriptParse("") == None && TypeScriptParse("-") == None
    ensures RustParse("7") == Some(7) && RustParse("007") == Some(7) && RustParse("+7") == None && RustParse("") == None
  {
    SevenIsRead();
    assert "-7"[1..] == "7" && "+7"[1..] == "7" && "-0"[1..] == "0" && "-"[1..] == "" && "+-7"[1..] == "-7";
    assert !IsDigit("7 "[1]) && !IsDigit("-7"[0]) && !IsDigit("+7"[0]);
    CheckedMeansFits("7");
    CheckedMeansFits("007");
  }

  lemma SevenIsRead()
    ensures ValueOf("7") == 7 && ValueOf("007") == 7 && ValueOf("0") == 0
  {
    assert "7"[..0] == "" && "0"[..0] == "" && "00"[..1] == "0" && "007"[..2] == "00";
    assert ValueOf("00") == 10 * ValueOf("0") + 0;
  }

  // ---- From Python to the SDKs ----

  lemma FitsLimit(n: int, limit: nat)
    requires limit >= 1
    ensures |Numeral(Magnitude(n))| <= limit <==> Magnitude(n) < Pow10(limit)
  {
    NumeralLength(Magnitude(n), limit);
  }

  /** Every spelling of a whole number prints as one string, unless it has more digits than the interpreter
      prints, and Go and TypeScript read back exactly that number; Rust does when it fits 128 bits. */
  lemma WireRoundTrip(d: Decimal, limit: nat)
    requires IsWhole(d)
    ensures WeiToWire(d, limit).Ok? <==> limit == 0 || Magnitude(Truncated(d)) < Pow10(limit)
    ensures WeiToWire(d, limit).Ok? ==>
            var n, s := Truncated(d), WeiToWire(d, limit).value;
            && s == Signed(n)
            && GoParse(s) == Some(n) && TypeScriptParse(s) == Some(n)
            && RustParse(s) == if 0 <= n < U128_END then Some(n) else None
  {
    SignedReadsBack(Truncated(d));
    if limit >= 1 { FitsLimit(Truncated(d), limit); }
  }

  /** Two amounts print alike exactly when they are the same number, however each is spelled. */
  lemma WireIsCanonical(d: Decimal, e: Decimal, limit: nat)
    requires IsWhole(d) && IsWhole(e) && WeiToWire(d, limit).Ok? && WeiToWire(e, limit).Ok?
    ensures WeiToWire(d, limit) == WeiToWire(e, limit) <==> Truncated(d) == Truncated(e)
  {
    WireRoundTrip(d, limit);
    WireRoundTrip(e, limit);
  }

  /** No plus sign, no leading zero, no minus before zero. */
  lemma WireHasNoNoise(d: Decimal, limit: nat)
    requires IsWhole(d) && WeiToWire(d, limit).Ok?
    ensures var s := WeiToWire(d, limit).value;
            s != [] && s[0] != '+' && Unsign(s) != [] && (Unsign(s)[0] == '0' ==> s == "0")
  {
    var n := Truncated(d);
    NumeralLeads(Magnitude(n));
    assert IsDigit(Numeral(Magnitude(n))[0]);
    if n < 0 {
      assert Signed(n)[1..] == Numeral(-n);
    } else if n == 0 {
      assert Numeral(0) == "0";
    }
  }

  /** Moving a power of ten between the coefficient and the exponent changes nothing. */
  lemma SpellingsOfOneNumber(negative: bool, coefficient: nat, exponent: nat, shift: nat)
    ensures var d := Finite(negative, coefficient, exponent);
            var e := Finite(negative, coefficient * Pow10(exponent + shift), 0 - (shift as int));
            IsWhole(d) && IsWhole(e) && Truncated(d) == Truncated(e)
  {
    PowersMultiply(exponent, shift);
    var p := Pow10(shift);
    assert coefficient * Pow10(exponent + shift) == (coefficient * Pow10(exponent)) * p;
    MultipleDivides(coefficient * Pow10(exponent), p);
  }

  lemma {:induction false} PowersMultiply(a: nat, b: nat)
    ensures Pow10(a + b) == Pow10(a) * Pow10(b)
  {
    if a > 0 {
      PowersMultiply(a - 1, b);
      assert 10 * (Pow10(a - 1) * Pow10(b)) == (10 * Pow10(a - 1)) * Pow10(b);
    }
  }

  lemma MultipleDivides(q: nat, p: nat)
    requires p > 0
    ensures q * p % p == 0 && q * p / p == q
  {
    DivisionIsUnique(q * p, p, q);
  }

  lemma DivisionIsUnique(x: nat, p: nat, q: nat)
    requires p > 0 && x == q * p
    ensures x / p == q && x % p == 0
  {
    var a := x / p - q;
    assert x == x / p * p + x % p;
    assert x / p * p == (q + a) * p == q * p + a * p;
    assert a * p < p && a * p + p > 0;
    Multiples(a, p);
  }

  lemma Multiples(a: int, p: nat)
    ensures a >= 1 ==> a * p >= p
    ensures a <= -1 ==> a * p + p <= 0
  {
    if a >= 1 {
      assert (a - 1) * p >= 0;
    } else if a <= -1 {
      assert (a + 1) * p <= 0;
    }
  }

  /** `n` is the value of `d`, with nothing cut off. */
  predicate IsValueOf(n: int, d: Decimal) {
    && d.Finite?
    && var signed := if d.negative then -(d.coefficient as int) else d.coefficient;
       if d.exponent >= 0 then n == signed * Pow10(d.exponent) else n * Pow10(-d.exponent) == signed
  }

  lemma WholeMeansExact(d: Decimal)
    ensures IsWhole(d) ==> IsValueOf(Truncated(d), d)
    ensures !IsWhole(d) ==> forall n :: !IsValueOf(n, d)
  {
    if d.Finite? && d.exponent >= 0 {
      NegatedProduct(d.coefficient, Pow10(d.exponent));
    } else if IsWhole(d) {
      QuotientIsExact(d);
    } else if d.Finite? {
      forall n ensures !IsValueOf(n, d) {
        if IsValueOf(n, d) { ValueIsMultiple(n, d.coefficient, Pow10(-d.exponent)); }
      }
    }
  }

  lemma QuotientIsExact(d: Decimal)
    requires IsWhole(d) && d.exponent < 0
    ensures IsValueOf(Truncated(d), d)
  {
    QuotientOfWhole(d.coefficient, Pow10(-d.exponent));
    NegatedProduct(d.coefficient / Pow10(-d.exponent), Pow10(-d.exponent));
  }

  lemma QuotientOfWhole(c: nat, p: nat)
    requires p > 0
    ensures c % p == 0 ==> c / p * p == c
  {
    assert c == c / p * p + c % p;
  }

  lemma NegatedProduct(q: int, p: int)
    ensures -q * p == -(q * p)
  {
  }

  lemma ValueIsMultiple(n: int, c: nat, p: nat)
    requires p > 0 && Magnitude(n * p) == c
    ensures c % p == 0
  {
    MagnitudeScales(n, p);
    MultipleDivides(Magnitude(n), p);
  }

  lemma MagnitudeScales(n: int, p: nat)
    ensures Magnitude(n * p) == Magnitude(n) * p
  {
    if n < 0 {
      assert n * p == -((-n) * p);
      assert (-n) * p >= 0;
    } else {
      assert n * p >= 0;
    }
  }

  /** The amount a caller offers; `None` for what is no number, and for a `float` that is not whole. */
  function Offered(v: Inbound): Option<Decimal> {
    match v
    case Integer(n) => Some(ToDecimal(n))
    case Exact(d) => Some(d)
    case Text(parsed) => parsed
    case Float(Some(n)) => Some(ToDecimal(n))
    case _ => None
  }

  /** What the gateway puts on the wire for a value it was given. */
  function OnTheWire(v: Inbound, limit: nat): Result<string> {
    var d :- ToWeiDecimal(v);
    WeiToWire(d, limit)
  }

  /** The wire string stands for exactly the amount offered. */
  predicate ArrivesIntact(v: Inbound, limit: nat) {
    && Offered(v).Some? && OnTheWire(v, limit).Ok?
    && GoParse(OnTheWire(v, limit).value).Some? && IsValueOf(GoParse(OnTheWire(v, limit).value).value, Offered(v).value)
  }

  predicate WholeWithin(d: Decimal, limit: nat) {
    IsWhole(d) && (limit == 0 || Magnitude(Truncated(d)) < Pow10(limit))
  }

  /** Anything printed reads back as the offer cut towards zero, so nothing but whole amounts can arrive intact. */
  lemma PrintsTruncated(d: Decimal, limit: nat)
    ensures WeiToWire(d, limit).Ok? <==> d.Finite? && (limit == 0 || Magnitude(Truncated(d)) < Pow10(limit))
    ensures WeiToWire(d, limit).Ok? ==> GoParse(WeiToWire(d, limit).value) == Some(Truncated(d))
  {
    if d.Finite? {
      SignedReadsBack(Truncated(d));
      if limit >= 1 { FitsLimit(Truncated(d), limit); }
    }
  }

  /** Whatever is offered: it arrives intact exactly when it is a whole number within the interpreter's limit. Text
      and `float` that are not whole are refused, but a `Decimal` that is not whole is let in and cut. */
  lemma ArrivesIntactIff(v: Inbound, limit: nat)
    ensures ArrivesIntact(v, limit) <==> Offered(v).Some? && WholeWithin(Offered(v).value, limit)
    ensures OnTheWire(v, limit).Ok? && !ArrivesIntact(v, limit) ==> v.Exact? && v.d.Finite? && !IsWhole(v.d)
  {
    if Offered(v).Some? {
      var d := Offered(v).value;
      PrintsTruncated(d, limit);
      WholeMeansExact(d);
    }
  }

  /** Offers are not all refused or intact: a tenth is printed as nothing. */
  lemma FractionIsCut(limit: nat)
    ensures var v := Exact(Finite(false, 1, -1));
            OnTheWire(v, limit) == Ok("0") && !ArrivesIntact(v, limit)
  {
    var d := Finite(false, 1, -1);
    assert Pow10(1) == 10 * Pow10(0);
    assert !IsWhole(d) && Truncated(d) == 0;
    assert |Numeral(0)| == 1;
    ArrivesIntactIff(Exact(d), limit);
  }

  /** A text reaches the wire exactly when it spells a whole number that is not too long; an infinity is
      let in and fails only there. */
  lemma InboundTextReachesWire(parsed: Option<Decimal>, limit: nat)
    ensures OnTheWire(Text(parsed), limit).Ok? <==> parsed.Some? && WholeWithin(parsed.value, limit)
    ensures parsed.Some? && parsed.value.Infinite? ==>
            ToWeiDecimal(Text(parsed)) == Ok(parsed.value) && OnTheWire(Text(parsed), limit) == Err("OverflowError")
  {
    ArrivesIntactIff(Text(parsed), limit);
  }

  /** Every refusal on the way in and out by its cause. */
  lemma RefusedAmounts(n: int, negative: bool, signaling: bool, d: Decimal, limit: nat)
    ensures ToWeiDecimal(Boolean) == Err("boolean") && ToWeiDecimal(Other) == Err("not_an_integer")
    ensures ToWeiDecimal(Text(None)) == Err("not_an_integer") && ToWeiDecimal(Float(None)) == Err("not_whole")
    ensures ToWeiDecimal(Text(Some(NotANumber(false)))) == Err("not_whole")
    ensures ToWeiDecimal(Text(Some(NotANumber(true)))) == Err("InvalidOperation")
    ensures d.Finite? && !IsWhole(d) ==> ToWeiDecimal(Text(Some(d))) == Err("not_whole")
    ensures WeiToWire(Infinite(negative), limit) == Err("OverflowError")
    ensures WeiToWire(NotANumber(signaling), limit) == Err("ValueError")
    ensures d.Finite? && WeiToWire(d, limit).Err? ==> WeiToWire(d, limit) == Err("ValueError")
    ensures ToWeiDecimal(Integer(n)).Ok? && ToWeiDecimal(Exact(d)) == Ok(d)
  {
  }

  // ---- JSON in Go ----

  predicate IsSpace(c: char) {
    || '\t' <= c <= '\r' || c == ' ' || c == '\U{85}' || c == '\U{A0}' || c == '\U{1680}'
    || '\U{2000}' <= c <= '\U{200A}'
    || c == '\U{2028}' || c == '\U{2029}' || c == '\U{202F}' || c == '\U{205F}' || c == '\U{3000}'
  }

  function TrimLeft(s: string): string { if s != [] && IsSpace(s[0]) then TrimLeft(s[1..]) else s }

  function TrimRight(s: string): string {
    if s != [] && IsSpace(s[|s| - 1]) then TrimRight(s[..|s| - 1]) else s
  }

  function TrimSpace(s: string): string { TrimRight(TrimLeft(s)) }

  /** The 25 characters that Unicode counts as white space. */
  lemma SpaceCharacters(c: char)
    ensures IsSpace(c) <==>
            c as int in {9, 10, 11, 12, 13, 32, 0x85, 0xA0, 0x1680, 0x2000, 0x2001, 0x2002, 0x2003, 0x2004, 0x2005,
                         0x2006, 0x2007, 0x2008, 0x2009, 0x200A, 0x2028, 0x2029, 0x202F, 0x205F, 0x3000}
  {
  }

  predicate AllSpace(s: string) { forall i :: 0 <= i < |s| ==> IsSpace(s[i]) }

  /** Trimming takes white space off both ends, all of it, and nothing else. */
  lemma TrimLaw(s: string) returns (before: string, after: string)
    ensures s == before + TrimSpace(s) + after && AllSpace(before) && AllSpace(after)
    ensures TrimSpace(s) != [] ==> !IsSpace(TrimSpace(s)[0]) && !IsSpace(TrimSpace(s)[|TrimSpace(s)| - 1])
  {
    before := TrimLeftLaw(s);
    after := TrimRightLaw(TrimLeft(s));
  }

  lemma {:induction false} TrimLeftLaw(s: string) returns (before: string)
    ensures s == before + TrimLeft(s) && AllSpace(before) && (TrimLeft(s) != [] ==> !IsSpace(TrimLeft(s)[0]))
  {
    before := [];
    if s != [] && IsSpace(s[0]) {
      var rest := TrimLeftLaw(s[1..]);
      before := [s[0]] + rest;
      assert s == [s[0]] + s[1..];
    }
  }

  lemma {:induction false} TrimRightLaw(s: string) returns (after: string)
    ensures s == TrimRight(s) + after && AllSpace(after)
    ensures TrimRight(s) != [] ==> TrimRight(s)[0] == s[0] && !IsSpace(TrimRight(s)[|TrimRight(s)| - 1])
  {
    after := [];
    if s != [] && IsSpace(s[|s| - 1]) {
      var rest := TrimRightLaw(s[..|s| - 1]);
      after := rest + [s[|s| - 1]];
      assert s == s[..|s| - 1] + [s[|s| - 1]];
    }
  }

  predicate Plain(s: string) {
    forall i :: 0 <= i < |s| ==> s[i] != '"' && s[i] != '\\' && s[i] >= ' '
  }

  function Quoted(s: string): string { "\"" + s + "\"" }

  /** A JSON string literal; one that is not plain is left to the library. */
  function JsonString(data: string, library: string -> Option<string>): Option<string> {
    if |data| >= 2 && data[0] == '"' && data[|data| - 1] == '"' && Plain(data[1..|data| - 1])
    then Some(data[1..|data| - 1]) else library(data)
  }

  function Marshal(w: Option<int>): string {
    match w
    case None => "null"
    case Some(n) => Quoted(Signed(n))
  }

  function Unmarshal(data: string, library: string -> Option<string>): Result<Option<int>> {
    var text := TrimSpace(data);
    if text == "" || text == "null" then Ok(None)
    else if text[0] == '"' then
      match JsonString(text, library)
      case None => Err("invalid wei amount")
      case Some(inner) => ParseAmount(TrimSpace(inner))
    else ParseAmount(text)
  }

  /** White space around aside, nothing and `null` are a missing amount, a plain text in quotes is read within them,
      white space there aside, and any other is read as it stands. */
  lemma UnmarshalLaw(data: string, inner: string, library: string -> Option<string>)
    ensures TrimSpace(data) in {"", "null"} ==> Unmarshal(data, library) == Ok(None)
    ensures TrimSpace(data) == ['"'] + inner + ['"'] && Plain(inner) ==>
            Unmarshal(data, library) == match GoParse(TrimSpace(inner))
                                        case None => Err("invalid wei amount")
                                        case Some(n) => Ok(Some(n))
    ensures TrimSpace(data) == ['"'] + inner + ['\\', '"'] ==>   // not plain: the library says what it spells
            Unmarshal(data, library) == match library(TrimSpace(data))
                                        case None => Err("invalid wei amount")
                                        case Some(spelled) => match GoParse(TrimSpace(spelled))
                                                              case None => Err("invalid wei amount")
                                                              case Some(n) => Ok(Some(n))
    ensures TrimSpace(data) !in {"", "null"} && TrimSpace(data)[0] != '"' ==>
            Unmarshal(data, library) == match GoParse(TrimSpace(data))
                                        case None => Err("invalid wei amount")
                                        case Some(n) => Ok(Some(n))
  {
    var text := TrimSpace(data);
    if text == ['"'] + inner + ['"'] {
      assert text[0] == '"' && text[|text| - 1] == '"' && text[1..|text| - 1] == inner;
    }
    if text == ['"'] + inner + ['\\', '"'] {
      assert text[1..|text| - 1] == inner + ['\\'] && (inner + ['\\'])[|inner|] == '\\';
    }
  }

  function ParseAmount(s: string): Result<Option<int>> {
    match GoParse(s)
    case None => Err("invalid wei amount")
    case Some(n) => Ok(Some(n))
  }

  class Wei {
    var amount: Option<int>

    constructor (amount: Option<int>)
      ensures this.amount == amount
    {
      this.amount := amount;
    }

    method MarshalJSON() returns (data: string)
      ensures data == Marshal(amount)
    {
      if amount.None? {
        return "null";
      }
      return "\"" + Signed(amount.value) + "\"";
    }

    /** On an error the receiver keeps what it had. */
    method UnmarshalJSON(input: string, library: string -> Option<string>) returns (ok: bool)
      modifies this
      ensures ok == Unmarshal(input, library).Ok?
      ensures amount == if ok then Unmarshal(input, library).value else old(amount)
    {
      var data := TrimSpace(input);
      if |data| == 0 || data == "null" {
        amount := None;
        return true;
      }
      var text := data;
      if data[0] == '"' {
        var inner := JsonString(data, library);
        if inner.None? {
          return false;
        }
        text := TrimSpace(inner.value);
      }
      var parsed := ParseWeiDigits(text);
      if parsed.None? {
        return false;
      }
      amount := parsed;
      return true;
    }
  }

  lemma SignedIsPlain(n: int)
    ensures Plain(Signed(n)) && Signed(n) != [] && TrimSpace(Signed(n)) == Signed(n)
  {
    var s := Signed(n);
    assert forall i :: 0 <= i < |s| ==> IsDigit(s[i]) || s[i] == '-';
  }

  /** Reading back what was written gives the amount, a missing one included, whatever the library does. */
  lemma MarshalRoundTrip(w: Option<int>, library: string -> Option<string>)
    ensures Unmarshal(Marshal(w), library) == Ok(w)
  {
    match w
    case None =>
    case Some(n) =>
      var s, data := Signed(n), Quoted(Signed(n));
      SignedIsPlain(n);
      assert data[0] == '"' && data[|data| - 1] == '"' && data[1..|data| - 1] == s;
      assert TrimSpace(data) == data;
      SignedReadsBack(n);
  }

  /** Go writes `null`, or the amount in quotes as the other SDKs read it. */
  lemma MarshalledForm(n: int)
    ensures Marshal(None) == "null"
    ensures var data := Marshal(Some(n));
            && |data| >= 3 && data[0] == '"' && data[|data| - 1] == '"'
            && TypeScriptParse(data[1..|data| - 1]) == Some(n)
            && RustParse(data[1..|data| - 1]) == if 0 <= n < U128_END then Some(n) else None
  {
    SignedReadsBack(n);
    var s, data := Signed(n), Marshal(Some(n));
    assert data == "\"" + s + "\"" && data[1..|data| - 1] == s;
  }

  /** What the gateway prints, Go's field reads. */
  lemma GoReadsTheWire(d: Decimal, limit: nat, library: string -> Option<string>)
    requires IsWhole(d) && WeiToWire(d, limit).Ok?
    ensures Unmarshal(Quoted(WeiToWire(d, limit).value), library) == Ok(Some(Truncated(d)))
  {
    MarshalRoundTrip(Some(Truncated(d)), library);
  }
}
