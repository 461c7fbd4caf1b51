/** Percent-encoding of query values (RFC 3986 sections 2.1 and 2.3). */
module PercentEncoding {
  import opened Results
  import opened Words

  predicate Unreserved(b: Byte) {
    || 'A' as int <= b <= 'Z' as int || 'a' as int <= b <= 'z' as int || '0' as int <= b <= '9' as int
    || b == '-' as int || b == '_' as int || b == '.' as int || b == '~' as int
  }

  /** Upper-case hexadecimal. */
  function HexDigit(d: nat): char
    requires d < 16
  {
    if d < 10 then '0' + d as char else 'A' + (d - 10) as char
  }

  predicate IsUpperHex(c: char) { '0' <= c <= '9' || 'A' <= c <= 'F' }

  function HexValue(c: char): Option<nat> {
    if '0' <= c <= '9' then Some(c as int - '0' as int)
    else if 'A' <= c <= 'F' then Some(c as int - 'A' as int + 10)
    else if 'a' <= c <= 'f' then Some(c as int - 'a' as int + 10)
    else None
  }

  function EncodeByte(b: Byte): string {
    if Unreserved(b) then [b as char] else ['%', HexDigit(b / 16), HexDigit(b % 16)]
  }

  function Encode(bytes: Bytes): string {
    if bytes == [] then "" else EncodeByte(bytes[0]) + Encode(bytes[1..])
  }

  lemma EncodeFrom(bytes: Bytes, i: nat)
    requires i < |bytes|
    ensures Encode(bytes[i..]) == EncodeByte(bytes[i]) + Encode(bytes[i + 1..])
  {
    assert bytes[i..][1..] == bytes[i + 1..];
  }

  const LETTERS: string := "ABCDEFGHIJKLMNOPQRSTUVWXYZ"
  const SMALL_LETTERS: string := "abcdefghijklmnopqrstuvwxyz"
  const DIGITS_AND_MARKS: string := "0123456789-_.~"

  lemma IsLetter(b: Byte)
    ensures b as char in LETTERS <==> 'A' as int <= b <= 'Z' as int
  {
    if 'A' as int <= b <= 'Z' as int { assert LETTERS[b - 'A' as int] == b as char; }
  }

  lemma IsSmallLetter(b: Byte)
    ensures b as char in SMALL_LETTERS <==> 'a' as int <= b <= 'z' as int
  {
    if 'a' as int <= b <= 'z' as int { assert SMALL_LETTERS[b - 'a' as int] == b as char; }
  }

  lemma IsDigitOrMark(b: Byte)
    ensures b as char in DIGITS_AND_MARKS <==> '0' as int <= b <= '9' as int || b in {45, 95, 46, 126}
  {
    if '0' as int <= b <= '9' as int { assert DIGITS_AND_MARKS[b - '0' as int] == b as char; }
    assert DIGITS_AND_MARKS[10] == '-' && DIGITS_AND_MARKS[11] == '_';
    assert DIGITS_AND_MARKS[12] == '.' && DIGITS_AND_MARKS[13] == '~';
  }

  /** The unreserved characters of RFC 3986 section 2.3, and no other byte. */
  lemma UnreservedSet(b: Byte)
    ensures Unreserved(b) <==>
            b as char in LETTERS || b as char in SMALL_LETTERS || b as char in DIGITS_AND_MARKS
  {
    IsLetter(b);
    IsSmallLetter(b);
    IsDigitOrMark(b);
  }

  /** An unreserved byte stands for itself, any other is a percent sign, its high and its low upper-case digit. */
  lemma EncodedByte(b: Byte)
    ensures Encode([b]) == if Unreserved(b) then [b as char]
                           else ['%', "0123456789ABCDEF"[b / 16], "0123456789ABCDEF"[b % 16]]
    ensures Encode([0x20]) == "%20" && Encode([0xE2, 0x82, 0xAC]) == "%E2%82%AC"
  {
    assert Encode([b]) == EncodeByte(b) + Encode([]);
    HexDigitAt(b / 16);
    HexDigitAt(b % 16);
    assert Encode([0x20]) == EncodeByte(0x20) + Encode([]);
    assert [0xE2, 0x82, 0xAC][1..] == [0x82, 0xAC] && [0x82, 0xAC][1..] == [0xAC];
    assert Encode([0xAC]) == EncodeByte(0xAC) + Encode([]) == "%AC";
    assert Encode([0x82, 0xAC]) == EncodeByte(0x82) + Encode([0xAC]) == "%82%AC";
    assert Encode([0xE2, 0x82, 0xAC]) == EncodeByte(0xE2) + Encode([0x82, 0xAC]);
  }

  lemma HexDigitAt(d: nat)
    requires d < 16
    ensures HexDigit(d) == "0123456789ABCDEF"[d]
  {
  }

  /** The loop as Rust runs it. */
  method UrlEncode(bytes: Bytes) returns (out: string)
    ensures out == Encode(bytes)
  {
    out := "";
    for i := 0 to |bytes|
      invariant out + Encode(bytes[i..]) == Encode(bytes)
    {
      var b := bytes[i];
      ghost var before, rest := out, Encode(bytes[i + 1..]);
      EncodeFrom(bytes, i);
      if Unreserved(b) {
        out := out + [b as char];
      } else {
        out := out + ['%', HexDigit(b / 16), HexDigit(b % 16)];
      }
      Regroup(before, EncodeByte(b), rest);
    }
  }

  /** What a receiver makes of an encoded value; `None` when it is malformed. Hexadecimal digits may be of
      either case. */
  function Decode(s: string): Option<Bytes> {
    if s == "" then Some([])
    else if s[0] == '%' then
      if |s| < 3 || HexValue(s[1]).None? || HexValue(s[2]).None? then None
      else
        match Decode(s[3..])
        case None => None
        case Some(rest) => Some([16 * HexValue(s[1]).value + HexValue(s[2]).value] + rest)
    else if s[0] as int >= 256 || !Unreserved(s[0] as int) then None
    else
      match Decode(s[1..])
      case None => None
      case Some(rest) => Some([s[0] as int] + rest)
  }

  /** Hexadecimal digits of both cases are read, and no other character. */
  lemma HexDigitsOfBothCases(i: nat, c: char)
    requires i < 16
    ensures HexValue("0123456789ABCDEF"[i]) == Some(i) && HexValue("0123456789abcdef"[i]) == Some(i)
    ensures !('0' <= c <= '9') && !('A' <= c <= 'F') && !('a' <= c <= 'f') ==> HexValue(c) == None
  {
  }

  lemma HexRoundTrip(d: nat)
    requires d < 16
    ensures HexValue(HexDigit(d)) == Some(d)
  {
  }

  lemma DecodeReserved(b: Byte, rest: string)
    requires !Unreserved(b) && Decode(rest).Some?
    ensures Decode(EncodeByte(b) + rest) == Some([b] + Decode(rest).value)
  {
    HexRoundTrip(b / 16);
    HexRoundTrip(b % 16);
    var s := EncodeByte(b) + rest;
    assert s[0] == '%' && s[1] == HexDigit(b / 16) && s[2] == HexDigit(b % 16) && s[3..] == rest;
  }

  lemma DecodeUnreserved(b: Byte, rest: string)
    requires Unreserved(b) && Decode(rest).Some?
    ensures Decode(EncodeByte(b) + rest) == Some([b] + Decode(rest).value)
  {
    var s := EncodeByte(b) + rest;
    assert s[0] == b as char && s[1..] == rest;
  }

  /** Decoding undoes encoding, for every byte string. */
  lemma {:induction false} DecodeEncode(bytes: Bytes)
    ensures Decode(Encode(bytes)) == Some(bytes)
  {
    if bytes != [] {
      var b, rest := bytes[0], Encode(bytes[1..]);
      DecodeEncode(bytes[1..]);
      if Unreserved(b) { DecodeUnreserved(b, rest); } else { DecodeReserved(b, rest); }
      assert [b] + bytes[1..] == bytes;
    }
  }

  /** Different byte strings encode differently. */
  lemma EncodeInjective(a: Bytes, b: Bytes)
    ensures Encode(a) == Encode(b) <==> a == b
  {
    DecodeEncode(a);
    DecodeEncode(b);
  }

  /** Every character is unreserved, or a percent sign with two upper-case hexadecimal digits behind it. */
  predicate WellFormed(s: string) {
    if s == "" then true
    else if s[0] == '%' then |s| >= 3 && IsUpperHex(s[1]) && IsUpperHex(s[2]) && WellFormed(s[3..])
    else s[0] as int < 256 && Unreserved(s[0] as int) && WellFormed(s[1..])
  }

  lemma {:induction false} EncodedIsWellFormed(bytes: Bytes)
    ensures WellFormed(Encode(bytes))
  {
    if bytes != [] {
      EncodedIsWellFormed(bytes[1..]);
      var b, rest := bytes[0], Encode(bytes[1..]);
      assert Encode(bytes) == EncodeByte(b) + rest;
      if Unreserved(b) {
        assert Encode(bytes)[1..] == rest;
      } else {
        assert Encode(bytes)[3..] == rest;
      }
    }
  }
}
