/** Correlation ids: a value that is a UUID is kept, lower-cased, and any other becomes the version 5 UUID of
    its bytes under the URL namespace (RFC 4122 section 4.3). */
module CorrelationId {
  import opened Results
  import opened Words

  /** SHA-1, as any function to 20 bytes. */
  type Digest = s: Bytes | |s| == 20 witness seq(20, _ => 0)
  type Hash = Bytes -> Digest

  const NAMESPACE_URL: Bytes :=
    [0x6b, 0xa7, 0xb8, 0x11, 0x9d, 0xad, 0x11, 0xd1, 0x80, 0xb4, 0x00, 0xc0, 0x4f, 0xd4, 0x30, 0xc8]
  const NAMESPACE_TEXT: string := "6ba7b811" + "-" + ("9dad" + "-" + ("11d1" + "-" + ("80b4" + "-" + "00c04fd430c8")))

  const HEX: string := "0123456789abcdef"

  predicate IsLowerHex(c: char) { '0' <= c <= '9' || 'a' <= c <= 'f' }

  predicate IsHex(c: char) { IsLowerHex(c) || 'A' <= c <= 'F' }

  predicate IsHyphenAt(i: int) { i in {8, 13, 18, 23} }

  /** 8-4-4-4-12 hexadecimal digits of either case. */
  predicate IsUuid(s: string) {
    |s| == 36 && forall i :: 0 <= i < 36 ==> if IsHyphenAt(i) then s[i] == '-' else IsHex(s[i])
  }

  predicate IsLowerUuid(s: string) {
    |s| == 36 && forall i :: 0 <= i < 36 ==> if IsHyphenAt(i) then s[i] == '-' else IsLowerHex(s[i])
  }

  function LowerChar(c: char): char {
    if 'A' <= c <= 'Z' then (c as int + 32) as char else c
  }

  function Lower(s: string): (t: string)
    ensures |t| == |s| && forall i :: 0 <= i < |s| ==> t[i] == LowerChar(s[i])
  {
    seq(|s|, i requires 0 <= i < |s| => LowerChar(s[i]))
  }

  // ---- Hexadecimal ----

  function HexOf(bytes: Bytes): (s: string)
    ensures |s| == 2 * |bytes| && forall i :: 0 <= i < |s| ==> IsLowerHex(s[i])
  {
    if bytes == [] then ""
    else HexOf(bytes[..|bytes| - 1]) + [HEX[bytes[|bytes| - 1] / 16], HEX[bytes[|bytes| - 1] % 16]]
  }

  lemma {:induction false} HexOfAt(bytes: Bytes, i: nat)
    requires i < |bytes|
    ensures HexOf(bytes)[2 * i] == HEX[bytes[i] / 16] && HexOf(bytes)[2 * i + 1] == HEX[bytes[i] % 16]
  {
    if i < |bytes| - 1 { HexOfAt(bytes[..|bytes| - 1], i); }
  }

  function Hyphenated(hex: string): string
    requires |hex| == 32
  {
    hex[0..8] + "-" + hex[8..12] + "-" + hex[12..16] + "-" + hex[16..20] + "-" + hex[20..32]
  }

  // ---- Text as bytes ----

  /** UTF-8 of one character. */
  function Utf8Char(c: char): (s: Bytes)
    ensures c as int < 128 ==> s == [c as int]
    ensures c as int >= 128 ==> |s| >= 2 && s[0] >= 128
  {
    var n := c as int;
    if n < 0x80 then [n]
    else if n < 0x800 then [0xC0 + n / 64, 0x80 + n % 64]
    else if n < 0x1_0000 then [0xE0 + n / 4096, 0x80 + n / 64 % 64, 0x80 + n % 64]
    else [0xF0 + n / 262_144, 0x80 + n / 4096 % 64, 0x80 + n / 64 % 64, 0x80 + n % 64]
  }

  function Utf8(s: string): Bytes {
    if s == "" then [] else Utf8Char(s[0]) + Utf8(s[1..])
  }

  /** The bytes of a Go string, each as the character of its code. */
  function AsChars(bytes: Bytes): (s: string)
    ensures |s| == |bytes| && forall i :: 0 <= i < |s| ==> s[i] as int == bytes[i]
  {
    seq(|bytes|, i requires 0 <= i < |bytes| => bytes[i] as char)
  }

  // ---- The Go map ----

  /** Version 5 and the RFC 4122 variant in their places; the masks keep the low 4 and the low 6 bits. */
  function Stamped(b: Bytes): (s: Bytes)
    requires |b| == 16
    ensures |s| == 16
  {
    b[6 := b[6] % 16 + 0x50][8 := b[8] % 64 + 0x80]
  }

  function UuidV5(hash: Hash, namespace: Bytes, name: Bytes): string {
    Hyphenated(HexOf(Stamped(hash(namespace + name)[..16])))
  }

  /** The scan as Go runs it. */
  method IsUuidString(s: string) returns (r: bool)
    ensures r == IsUuid(s)
  {
    if |s| != 36 {
      return false;
    }
    for i := 0 to |s|
      invariant forall j :: 0 <= j < i ==> if IsHyphenAt(j) then s[j] == '-' else IsHex(s[j])
    {
      var c := s[i];
      if i == 8 || i == 13 || i == 18 || i == 23 {
        if c != '-' {
          return false;
        }
      } else if !('0' <= c <= '9' || 'a' <= c <= 'f' || 'A' <= c <= 'F') {
        return false;
      }
    }
    return true;
  }

  function GoCorrelationId(hash: Hash, value: Bytes): string {
    var text := AsChars(value);
    if IsUuid(text) then Lower(text) else UuidV5(hash, NAMESPACE_URL, value)
  }

  // ---- The TypeScript map ----

  /** The pattern as a match of its five groups. */
  predicate MatchesGroups(s: string) {
    && |s| == 36 && s[8] == s[13] == s[18] == s[23] == '-'
    && AllHex(s[..8]) && AllHex(s[9..13]) && AllHex(s[14..18]) && AllHex(s[19..23]) && AllHex(s[24..])
  }

  predicate AllHex(s: string) { forall i :: 0 <= i < |s| ==> IsHex(s[i]) }

  function WithoutHyphens(s: string): string {
    if s == "" then ""
    else
      var rest := WithoutHyphens(s[1..]);
      if s[0] == '-' then rest else [s[0]] + rest
  }

  function HexDigitValue(c: char): (d: nat)
    ensures d < 16
  {
    if '0' <= c <= '9' then c as int - '0' as int
    else if 'a' <= c <= 'f' then c as int - 'a' as int + 10
    else 0
  }

  /** The bytes of a text of hexadecimal digits. */
  function FromHex(s: string): (bytes: Bytes)
    ensures |bytes| == |s| / 2
    ensures forall i :: 0 <= i < |bytes| ==> bytes[i] == 16 * HexDigitValue(s[2 * i]) + HexDigitValue(s[2 * i + 1])
  {
    seq(|s| / 2, i requires 0 <= i < |s| / 2 => 16 * HexDigitValue(s[2 * i]) + HexDigitValue(s[2 * i + 1]))
  }

  function TypeScriptCorrelationId(hash: Hash, value: string): string {
    if MatchesGroups(value) then Lower(value)
    else
      TypeScriptLayout(hash(FromHex(WithoutHyphens(NAMESPACE_TEXT)) + Utf8(value))[..16])
  }

  function TypeScriptLayout(bytes: Bytes): string
    requires |bytes| == 16
  {
    var hex := HexOf(bytes[6 := bytes[6] % 16 + 0x50][8 := bytes[8] % 64 + 0x80]);
    hex[..8] + "-" + hex[8..12] + "-" + hex[12..16] + "-" + hex[16..20] + "-" + hex[20..]
  }

  // ---- Bytes as digits and back, and text as bytes ----

  lemma HexDigitsRead(d: nat)
    requires d < 16
    ensures HEX[d] == "0123456789abcdef"[d] && HexDigitValue(HEX[d]) == d
  {
  }

  /** Two lower-case digits a byte, the high one first. */
  lemma HexDigitsAt(bytes: Bytes, i: nat)
    requires i < |bytes|
    ensures HexOf(bytes)[2 * i] == "0123456789abcdef"[bytes[i] / 16]
    ensures HexOf(bytes)[2 * i + 1] == "0123456789abcdef"[bytes[i] % 16]
    ensures FromHex(HexOf(bytes))[i] == bytes[i]
  {
    HexOfAt(bytes, i);
    HexDigitsRead(bytes[i] / 16);
    HexDigitsRead(bytes[i] % 16);
  }

  /** Reading the digits gives the bytes back. */
  lemma HexReadsBack(bytes: Bytes)
    ensures FromHex(HexOf(bytes)) == bytes
  {
    var read := FromHex(HexOf(bytes));
    forall i | 0 <= i < |bytes| ensures read[i] == bytes[i] { HexDigitsAt(bytes, i); }
  }

  predicate Continues(b: Byte) { 0x80 <= b <= 0xBF }

  /** The six bits that a byte after the first carries. */
  function Low(b: Byte): int { b as int - 0x80 }

  lemma OneByte(c: char)
    requires c as int < 0x80
    ensures Utf8Char(c) == [c as int]
  {
  }

  lemma TwoBytes(c: char)
    requires 0x80 <= c as int < 0x800
    ensures var s := Utf8Char(c);
            && |s| == 2 && 0xC2 <= s[0] <= 0xDF && Continues(s[1])
            && c as int == (s[0] as int - 0xC0) * 0x40 + Low(s[1])
  {
  }

  lemma ThreeBytes(c: char)
    requires 0x800 <= c as int < 0x1_0000
    ensures var s := Utf8Char(c);
            && |s| == 3 && 0xE0 <= s[0] <= 0xEF && Continues(s[1]) && Continues(s[2])
            && c as int == (s[0] as int - 0xE0) * 0x1000 + Low(s[1]) * 0x40 + Low(s[2])
  {
    var n := c as int;
    assert n / 64 == n / 4096 * 64 + n / 64 % 64;
  }

  lemma FourBytes(c: char)
    requires 0x1_0000 <= c as int
    ensures var s := Utf8Char(c);
            && |s| == 4 && 0xF0 <= s[0] <= 0xF4 && Continues(s[1]) && Continues(s[2]) && Continues(s[3])
            && c as int == (s[0] as int - 0xF0) * 0x4_0000 + Low(s[1]) * 0x1000 + Low(s[2]) * 0x40 + Low(s[3])
  {
    var n := c as int;
    assert n / 64 == n / 4096 * 64 + n / 64 % 64;
    assert n / 4096 == n / 262_144 * 64 + n / 4096 % 64;
  }

  /** UTF-8 (RFC 3629): as many bytes as the character needs, the lead byte by its range and the others from 0x80 to
      0xBF, carrying the character's bits in order. */
  lemma Utf8Law(c: char)
    ensures var n, s := c as int, Utf8Char(c);
            && (n < 0x80 ==> s == [n])
            && (0x80 <= n < 0x800 ==> |s| == 2 && 0xC2 <= s[0] <= 0xDF && n == (s[0] as int - 0xC0) * 0x40 + Low(s[1]))
            && (0x800 <= n < 0x1_0000 ==>
                  |s| == 3 && 0xE0 <= s[0] <= 0xEF &&
                  n == (s[0] as int - 0xE0) * 0x1000 + Low(s[1]) * 0x40 + Low(s[2]))
            && (0x1_0000 <= n ==>
                  |s| == 4 && 0xF0 <= s[0] <= 0xF4 &&
                  n == (s[0] as int - 0xF0) * 0x4_0000 + Low(s[1]) * 0x1000 + Low(s[2]) * 0x40 + Low(s[3]))
            && forall i :: 1 <= i < |s| ==> Continues(s[i])
  {
    var n := c as int;
    if n < 0x80 { OneByte(c); }
    else if n < 0x800 { TwoBytes(c); }
    else if n < 0x1_0000 { ThreeBytes(c); }
    else { FourBytes(c); }
  }

  /** Both cases of a letter, and nothing but letters, are changed. */
  lemma LowerLetters(i: nat, c: char)
    requires i < 26
    ensures LowerChar("ABCDEFGHIJKLMNOPQRSTUVWXYZ"[i]) == "abcdefghijklmnopqrstuvwxyz"[i]
    ensures !('A' <= c <= 'Z') ==> LowerChar(c) == c
  {
  }

  /** Hexadecimal digits of either case, and no other character. */
  lemma HexCharacters(c: char)
    ensures IsHex(c) <==> c in "0123456789abcdefABCDEF"
  {
    var digits := "0123456789abcdefABCDEF";
    if '0' <= c <= '9' { assert digits[c as int - '0' as int] == c; }
    if 'a' <= c <= 'f' { assert digits[c as int - 'a' as int + 10] == c; }
    if 'A' <= c <= 'F' { assert digits[c as int - 'A' as int + 16] == c; }
  }

  // ---- The namespace, as text and as bytes ----

  lemma {:induction false} WithoutHyphensAppend(s: string, t: string)
    ensures WithoutHyphens(s + t) == WithoutHyphens(s) + WithoutHyphens(t)
  {
    if s == "" {
      assert s + t == t;
    } else {
      WithoutHyphensAppend(s[1..], t);
      assert (s + t)[1..] == s[1..] + t && (s + t)[0] == s[0];
      Regroup(if s[0] == '-' then "" else [s[0]], WithoutHyphens(s[1..]), WithoutHyphens(t));
    }
  }

  lemma {:induction false} NoHyphens(s: string)
    requires '-' !in s
    ensures WithoutHyphens(s) == s
  {
    if s != "" {
      assert s == [s[0]] + s[1..];
      NoHyphens(s[1..]);
    }
  }

  lemma DropHyphen(group: string, rest: string)
    requires '-' !in group
    ensures WithoutHyphens(group + "-" + rest) == group + WithoutHyphens(rest)
  {
    WithoutHyphensAppend(group + "-", rest);
    WithoutHyphensAppend(group, "-");
    NoHyphens(group);
    assert WithoutHyphens("-") == "";
  }

  lemma DropFourHyphens(a: string, b: string, c: string, d: string, e: string)
    requires '-' !in a && '-' !in b && '-' !in c && '-' !in d && '-' !in e
    ensures WithoutHyphens(a + "-" + (b + "-" + (c + "-" + (d + "-" + e)))) == a + (b + (c + (d + e)))
  {
    DropHyphen(a, b + "-" + (c + "-" + (d + "-" + e)));
    DropHyphen(b, c + "-" + (d + "-" + e));
    DropHyphen(c, d + "-" + e);
    DropHyphen(d, e);
    NoHyphens(e);
  }

  lemma FromHexAppend(s: string, t: string)
    requires |s| % 2 == 0
    ensures FromHex(s + t) == FromHex(s) + FromHex(t)
  {
    var joined, parts := FromHex(s + t), FromHex(s) + FromHex(t);
    forall i | 0 <= i < |joined| ensures joined[i] == parts[i] {
      if 2 * i < |s| {
        assert (s + t)[2 * i] == s[2 * i] && (s + t)[2 * i + 1] == s[2 * i + 1];
      } else {
        assert (s + t)[2 * i] == t[2 * i - |s|] && (s + t)[2 * i + 1] == t[2 * i + 1 - |s|];
      }
    }
  }

  lemma ShortGroupBytes()
    ensures FromHex("9dad") == [0x9d, 0xad] && FromHex("11d1") == [0x11, 0xd1] && FromHex("80b4") == [0x80, 0xb4]
  {
  }

  lemma LongGroupBytes()
    ensures FromHex("6ba7b811") == [0x6b, 0xa7, 0xb8, 0x11]
    ensures FromHex("00c04fd430c8") == [0x00, 0xc0, 0x4f, 0xd4, 0x30, 0xc8]
  {
  }

  lemma BytesOfGroups(a: string, b: string, c: string, d: string, e: string)
    requires '-' !in a && '-' !in b && '-' !in c && '-' !in d && '-' !in e
    requires |a| % 2 == 0 && |b| % 2 == 0 && |c| % 2 == 0 && |d| % 2 == 0
    ensures FromHex(WithoutHyphens(a + "-" + (b + "-" + (c + "-" + (d + "-" + e))))) ==
            FromHex(a) + (FromHex(b) + (FromHex(c) + (FromHex(d) + FromHex(e))))
  {
    DropFourHyphens(a, b, c, d, e);
    FromHexAppend(a, b + (c + (d + e)));
    FromHexAppend(b, c + (d + e));
    FromHexAppend(c, d + e);
    FromHexAppend(d, e);
  }

  lemma NamespacesAgree()
    ensures FromHex(WithoutHyphens(NAMESPACE_TEXT)) == NAMESPACE_URL
  {
    var a, b, c, d, e := Groups();
    BytesOfGroups(a, b, c, d, e);
    GroupBytes(a, b, c, d, e);
  }

  /** The five groups of the namespace. */
  lemma Groups() returns (a: string, b: string, c: string, d: string, e: string)
    ensures a == "6ba7b811" && b == "9dad" && c == "11d1" && d == "80b4" && e == "00c04fd430c8"
    ensures NAMESPACE_TEXT == a + "-" + (b + "-" + (c + "-" + (d + "-" + e)))
    ensures '-' !in a && '-' !in b && '-' !in c && '-' !in d && '-' !in e
  {
    a, b, c, d, e := "6ba7b811", "9dad", "11d1", "80b4", "00c04fd430c8";
  }

  lemma GroupBytes(a: string, b: string, c: string, d: string, e: string)
    requires a == "6ba7b811" && b == "9dad" && c == "11d1" && d == "80b4" && e == "00c04fd430c8"
    ensures FromHex(a) + (FromHex(b) + (FromHex(c) + (FromHex(d) + FromHex(e)))) == NAMESPACE_URL
  {
    ShortGroupBytes();
    LongGroupBytes();
    JoinGroups(FromHex(a), FromHex(b), FromHex(c), FromHex(d), FromHex(e));
  }

  lemma JoinGroups(a: Bytes, b: Bytes, c: Bytes, d: Bytes, e: Bytes)
    requires a == NAMESPACE_URL[0..4] && b == NAMESPACE_URL[4..6] && c == NAMESPACE_URL[6..8]
    requires d == NAMESPACE_URL[8..10] && e == NAMESPACE_URL[10..16]
    ensures a + (b + (c + (d + e))) == NAMESPACE_URL
  {
  }

  // ---- What the map gives ----

  lemma LowerOfUuid(s: string)
    requires IsUuid(s)
    ensures IsLowerUuid(Lower(s)) && IsUuid(Lower(s)) && Lower(Lower(s)) == Lower(s)
  {
    var t := Lower(s);
    forall i | 0 <= i < 36
      ensures if IsHyphenAt(i) then t[i] == '-' else IsLowerHex(t[i])
    {
      assert t[i] == LowerChar(s[i]);
    }
  }

  lemma HyphenatedIsUuid(hex: string)
    requires |hex| == 32 && forall i :: 0 <= i < 32 ==> IsLowerHex(hex[i])
    ensures IsLowerUuid(Hyphenated(hex))
    ensures Hyphenated(hex)[14] == hex[12] && Hyphenated(hex)[19] == hex[16]
  {
  }

  /** A derived id is a well-formed lower-case UUID of version 5 and of the RFC 4122 variant. */
  lemma DerivedIsVersion5(hash: Hash, namespace: Bytes, name: Bytes)
    ensures var id := UuidV5(hash, namespace, name);
            IsLowerUuid(id) && id[14] == '5' && id[19] in {'8', '9', 'a', 'b'}
  {
    var b := hash(namespace + name)[..16];
    var stamped := Stamped(b);
    HexOfAt(stamped, 6);
    HexOfAt(stamped, 8);
    HyphenatedIsUuid(HexOf(stamped));
    assert stamped[6] / 16 == 5;
    assert 8 <= stamped[8] / 16 <= 11;
  }

  lemma WithoutFourHyphens(hex: string)
    requires |hex| == 32 && forall i :: 0 <= i < 32 ==> IsLowerHex(hex[i])
    ensures WithoutHyphens(Hyphenated(hex)) == hex
  {
    var a, b, c, d, e := hex[0..8], hex[8..12], hex[12..16], hex[16..20], hex[20..32];
    assert Hyphenated(hex) == a + "-" + (b + "-" + (c + "-" + (d + "-" + e)));
    DropFourHyphens(a, b, c, d, e);
    assert a + (b + (c + (d + e))) == hex;
  }

  /** RFC 4122 section 4.3: a derived id's 16 bytes are the first of the hash of the URL namespace and the value, with
      version 5 in the four high bits of byte 6 and binary 10 in the two high bits of byte 8. */
  lemma DerivedFromHash(hash: Hash, value: Bytes)
    requires !IsUuid(AsChars(value))
    ensures var sum := hash([0x6b, 0xa7, 0xb8, 0x11, 0x9d, 0xad, 0x11, 0xd1,
                             0x80, 0xb4, 0x00, 0xc0, 0x4f, 0xd4, 0x30, 0xc8] + value);
            var id := FromHex(WithoutHyphens(GoCorrelationId(hash, value)));
            && |id| == 16 && (forall i :: 0 <= i < 16 && i != 6 && i != 8 ==> id[i] == sum[i])
            && id[6] / 16 == 5 && id[6] % 16 == sum[6] % 16 && id[8] / 64 == 2 && id[8] % 64 == sum[8] % 64
  {
    var stamped := Stamped(hash(NAMESPACE_URL + value)[..16]);
    WithoutFourHyphens(HexOf(stamped));
    HexReadsBack(stamped);
  }

  lemma LowerUuidIsUuid(s: string)
    requires IsLowerUuid(s)
    ensures IsUuid(s) && Lower(s) == s
  {
    forall i | 0 <= i < 36 ensures LowerChar(s[i]) == s[i] {
      assert if IsHyphenAt(i) then s[i] == '-' else IsLowerHex(s[i]);
    }
  }

  /** The Go map always gives a well-formed lower-case UUID: the value itself when it is one, up to case. */
  lemma GoGivesUuid(hash: Hash, value: Bytes)
    ensures IsLowerUuid(GoCorrelationId(hash, value))
    ensures IsUuid(AsChars(value)) ==> GoCorrelationId(hash, value) == Lower(AsChars(value))
    ensures !IsUuid(AsChars(value)) ==> GoCorrelationId(hash, value)[14] == '5'
  {
    if IsUuid(AsChars(value)) {
      LowerOfUuid(AsChars(value));
    } else {
      DerivedIsVersion5(hash, NAMESPACE_URL, value);
    }
  }

  lemma UuidIsAscii(s: string)
    requires IsUuid(s)
    ensures forall i :: 0 <= i < |s| ==> s[i] as int < 128
  {
    forall i | 0 <= i < 36 ensures s[i] as int < 128 {
      assert if IsHyphenAt(i) then s[i] == '-' else IsHex(s[i]);
    }
  }

  lemma {:induction false} Utf8OfAscii(s: string)
    requires forall i :: 0 <= i < |s| ==> s[i] as int < 128
    ensures AsChars(Utf8(s)) == s
  {
    if s != "" {
      Utf8OfAscii(s[1..]);
      assert Utf8(s) == [s[0] as int] + Utf8(s[1..]);
      assert AsChars(Utf8(s)) == [s[0]] + AsChars(Utf8(s[1..]));
    }
  }

  lemma {:induction false} Utf8OfOther(s: string)
    requires exists i :: 0 <= i < |s| && s[i] as int >= 128
    ensures exists j :: 0 <= j < |Utf8(s)| && Utf8(s)[j] >= 128
  {
    var head, tail := Utf8Char(s[0]), Utf8(s[1..]);
    assert Utf8(s) == head + tail;
    if s[0] as int >= 128 {
      assert Utf8(s)[0] >= 128;
    } else {
      var i :| 0 <= i < |s| && s[i] as int >= 128;
      assert s[1..][i - 1] == s[i];
      Utf8OfOther(s[1..]);
      var j :| 0 <= j < |tail| && tail[j] >= 128;
      assert Utf8(s)[|head| + j] == tail[j];
    }
  }

  /** Asking a text or its UTF-8 bytes whether they are a UUID is the same. */
  lemma SameTest(value: string)
    ensures IsUuid(AsChars(Utf8(value))) <==> IsUuid(value)
    ensures IsUuid(value) ==> AsChars(Utf8(value)) == value
  {
    var text := AsChars(Utf8(value));
    if forall i :: 0 <= i < |value| ==> value[i] as int < 128 {
      Utf8OfAscii(value);
    } else {
      Utf8OfOther(value);
      if IsUuid(text) { UuidIsAscii(text); }
      if IsUuid(value) { UuidIsAscii(value); }
    }
  }

  /** Mapping an id again leaves it alone. */
  lemma GoIsIdempotent(hash: Hash, value: Bytes)
    ensures GoCorrelationId(hash, Utf8(GoCorrelationId(hash, value))) == GoCorrelationId(hash, value)
  {
    var id := GoCorrelationId(hash, value);
    GoGivesUuid(hash, value);
    LowerUuidIsUuid(id);
    SameTest(id);
  }

  lemma GroupsMeanUuid(s: string)
    ensures MatchesGroups(s) <==> IsUuid(s)
  {
    if MatchesGroups(s) {
      forall i | 0 <= i < 36 ensures if IsHyphenAt(i) then s[i] == '-' else IsHex(s[i]) {
        if i < 8 { assert s[..8][i] == s[i]; }
        else if 8 < i < 13 { assert s[9..13][i - 9] == s[i]; }
        else if 13 < i < 18 { assert s[14..18][i - 14] == s[i]; }
        else if 18 < i < 23 { assert s[19..23][i - 19] == s[i]; }
        else if 23 < i { assert s[24..][i - 24] == s[i]; }
      }
    }
  }

  /** Go and TypeScript give one id for one text, whatever the hash. */
  lemma GoAgreesWithTypeScript(hash: Hash, value: string)
    ensures GoCorrelationId(hash, Utf8(value)) == TypeScriptCorrelationId(hash, value)
  {
    SameTest(value);
    GroupsMeanUuid(value);
    NamespacesAgree();
    SameLayout(hash(NAMESPACE_URL + Utf8(value))[..16]);
  }

  lemma SameLayout(bytes: Bytes)
    requires |bytes| == 16
    ensures Hyphenated(HexOf(Stamped(bytes))) == TypeScriptLayout(bytes)
  {
    var hex := HexOf(Stamped(bytes));
    assert hex[0..8] == hex[..8] && hex[20..32] == hex[20..];
  }
}
