/** What the signed byte strings and codes of a settlement stand for, by laws of their own. */
module SettlementAmounts {
  import opened Results
  import opened Words
  import opened Settlement

  // ---- Amounts ----

  function Pow256(n: nat): (p: nat)
    ensures p >= 1
  {
    if n == 0 then 1 else 256 * Pow256(n - 1)
  }

  /** The bytes from the `i`th on, each by the place it is in: the sum of `s[i] * 256^(|s| - 1 - i)`. */
  function PlaceSum(s: Bytes, i: nat): nat
    requires i <= |s|
    decreases |s| - i
  {
    if i == |s| then 0 else s[i] * Pow256(|s| - 1 - i) + PlaceSum(s, i + 1)
  }

  /** The amount that a byte string stands for. */
  function Amount(s: Bytes): nat { PlaceSum(s, 0) }

  lemma {:induction false} PlaceSumShifts(s: Bytes, b: Byte, i: nat)
    requires i <= |s|
    ensures PlaceSum(s + [b], i) == 256 * PlaceSum(s, i) + b
    decreases |s| - i
  {
    if i == |s| {
      assert PlaceSum(s + [b], i) == b * Pow256(0) + PlaceSum(s + [b], i + 1);
    } else {
      PlaceSumShifts(s, b, i + 1);
      Distribute(s[i], Pow256(|s| - 1 - i));
    }
  }

  lemma Distribute(x: int, p: int)
    ensures x * (256 * p) == 256 * (x * p)
  {
  }

  /** The first byte counts most: the number read is the sum by places. */
  lemma {:induction false} BigEndianIsPlaceSum(s: Bytes)
    ensures FromBigEndian(s) == Amount(s)
  {
    if s != [] {
      var init, b := s[..|s| - 1], s[|s| - 1];
      assert s == init + [b];
      BigEndianIsPlaceSum(init);
      PlaceSumShifts(init, b, 0);
    }
  }

  lemma AmountsAreRead()
    ensures forall s: Bytes :: FromBigEndian(s) == Amount(s)
  {
    forall s: Bytes ensures FromBigEndian(s) == Amount(s) { BigEndianIsPlaceSum(s); }
  }

  lemma {:induction false} PlaceSumOfTail(b: Byte, rest: Bytes, i: nat)
    requires i <= |rest|
    ensures PlaceSum([b] + rest, i + 1) == PlaceSum(rest, i)
    decreases |rest| - i
  {
    if i < |rest| { PlaceSumOfTail(b, rest, i + 1); }
  }

  /** The positional law, the bound, and the empty string. */
  lemma {:induction false} BigEndianLaw(b: Byte, rest: Bytes)
    ensures FromBigEndian([b] + rest) == b * Pow256(|rest|) + FromBigEndian(rest)
    ensures FromBigEndian(rest) < Pow256(|rest|) && FromBigEndian([]) == 0
    decreases |rest|
  {
    BigEndianIsPlaceSum([b] + rest);
    BigEndianIsPlaceSum(rest);
    PlaceSumOfTail(b, rest, 0);
    if rest != [] {
      BigEndianLaw(rest[0], rest[1..]);
      assert [rest[0]] + rest[1..] == rest;
      BoundGrows(rest[0], Pow256(|rest| - 1), FromBigEndian(rest[1..]));
    }
  }

  lemma BoundGrows(b: Byte, p: nat, x: nat)
    requires x < p
    ensures b * p + x < 256 * p
  {
    assert b * p <= 255 * p;
  }

  lemma TwoBytes(high: Byte, low: Byte)
    ensures FromBigEndian([high, low]) == 256 * high + low && FromBigEndian([1, 0]) == 256
  {
    TwoBytesRead(high, low);
    TwoBytesRead(1, 0);
  }

  lemma TwoBytesRead(high: Byte, low: Byte)
    ensures FromBigEndian([high, low]) == 256 * high + low
  {
    var s: Bytes := [high, low];
    assert s[..1] == [high] && [high][..0] == [];
    assert FromBigEndian([high]) == high;
    assert FromBigEndian(s) == 256 * FromBigEndian(s[..1]) + s[1];
  }

  // ---- Codes ----

  const LETTERS: string := "abcdefghijklmnopqrstuvwxyz"
  const DIGITS: string := "0123456789"

  /** A lower-case letter, then up to 63 lower-case letters, digits and underscores. */
  predicate IsCode(s: string) {
    && 1 <= |s| <= 64 && s[0] in LETTERS
    && forall i :: 1 <= i < |s| ==> s[i] in LETTERS || s[i] in DIGITS || s[i] == '_'
  }

  /** An entry that is absent, empty or a code. */
  predicate CodeOrNone(breakdown: map<string, string>, name: string) {
    name in breakdown && breakdown[name] != "" ==> IsCode(breakdown[name])
  }

  lemma CodeOrNoneIff(breakdown: map<string, string>, name: string)
    ensures CodeOrNone(breakdown, name) <==>
            Entry(breakdown, name).None? || SafeCode(Entry(breakdown, name).value)
  {
    if name in breakdown { SafeCodeIsCode(breakdown[name]); }
  }

  lemma LetterRange(c: char)
    ensures c in LETTERS <==> 'a' <= c <= 'z'
  {
    if 'a' <= c <= 'z' {
      assert LETTERS[c as int - 'a' as int] == c;
    }
  }

  lemma DigitRange(c: char)
    ensures c in DIGITS <==> '0' <= c <= '9'
  {
    if '0' <= c <= '9' {
      assert DIGITS[c as int - '0' as int] == c;
    }
  }

  lemma SafeCodeIsCode(s: string)
    ensures SafeCode(s) <==> IsCode(s)
  {
    if s != [] { LetterRange(s[0]); }
    forall i | 1 <= i < |s|
      ensures s[i] in LETTERS || s[i] in DIGITS <==> 'a' <= s[i] <= 'z' || '0' <= s[i] <= '9'
    {
      LetterRange(s[i]);
      DigitRange(s[i]);
    }
  }
}
