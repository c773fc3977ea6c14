/**
 Page cursors: the eight big-endian bytes of an identifier in unpadded base64url (section 5 of
 RFC 4648). The decoder skips line breaks and does not look at unused trailing bits.
 */
module Cursor {
  import opened Options

  const HALF := 0x8000_0000_0000_0000
  const WORD := 2 * HALF

  // ---------- The alphabet

  predicate IsDigit(d: int) { 0 <= d < 64 }
  predicate IsByte(b: int) { 0 <= b < 256 }

  function CharOf(d: int): char
    requires IsDigit(d)
  {
    if d < 26 then 'A' + d as char else if d < 52 then 'a' + (d - 26) as char else if d < 62 then '0' + (d - 52) as char
    else if d == 62 then '-' else '_'
  }

  function DigitOf(c: char): Option<int> {
    if 'A' <= c <= 'Z' then Some((c - 'A') as int) else if 'a' <= c <= 'z' then Some((c - 'a') as int + 26)
    else if '0' <= c <= '9' then Some((c - '0') as int + 52) else if c == '-' then Some(62)
      else if c == '_' then Some(63) else None
  }

  /** The alphabet of table 2 of RFC 4648: the runs A to Z, a to z and 0 to 9, then two signs */
  lemma Alphabet(d: int)
    requires IsDigit(d)
    ensures CharOf(0) == 'A' && CharOf(25) == 'Z' && CharOf(26) == 'a' && CharOf(51) == 'z'
    ensures CharOf(52) == '0' && CharOf(61) == '9' && CharOf(62) == '-' && CharOf(63) == '_'
    ensures d < 61 && d != 25 && d != 51 ==> CharOf(d + 1) as int == CharOf(d) as int + 1
  {
  }

  lemma DigitOfChar(d: int)
    requires IsDigit(d)
    ensures DigitOf(CharOf(d)) == Some(d) && CharOf(d) != '\r' && CharOf(d) != '\n'
  {
  }

  lemma CharOfDigit(c: char)
    requires DigitOf(c).Some?
    ensures IsDigit(DigitOf(c).value) && CharOf(DigitOf(c).value) == c
  {
  }

  // ---------- Groups of bytes and digits

  predicate Bytes(bs: seq<int>) { forall i :: 0 <= i < |bs| ==> IsByte(bs[i]) }
  predicate Digits(ds: seq<int>) { forall i :: 0 <= i < |ds| ==> IsDigit(ds[i]) }

  // The four digits of three bytes, and the three bytes of four digits
  function D0(a: int): int { a / 4 }
  function D1(a: int, b: int): int { a % 4 * 16 + b / 16 }
  function D2(b: int, c: int): int { b % 16 * 4 + c / 64 }
  function D3(c: int): int { c % 64 }
  function B0(d: int, e: int): int { d * 4 + e / 16 }
  function B1(d: int, e: int): int { d % 16 * 16 + e / 4 }
  function B2(d: int, e: int): int { d % 4 * 64 + e }

  function ToDigits(bs: seq<int>): (ds: seq<int>)
    requires Bytes(bs)
    ensures Digits(ds)
  {
    if |bs| == 0 then []
    else if |bs| == 1 then [D0(bs[0]), D1(bs[0], 0)]
    else if |bs| == 2 then [D0(bs[0]), D1(bs[0], bs[1]), D2(bs[1], 0)]
    else [D0(bs[0]), D1(bs[0], bs[1]), D2(bs[1], bs[2]), D3(bs[2])] + ToDigits(bs[3..])
  }

  /** A single left-over digit is an error. */
  function ToBytes(ds: seq<int>): (r: Option<seq<int>>)
    requires Digits(ds)
    ensures r.Some? ==> Bytes(r.value)
  {
    if |ds| == 0 then Some([])
    else if |ds| == 1 then None
    else if |ds| == 2 then Some([B0(ds[0], ds[1])])
    else if |ds| == 3 then Some([B0(ds[0], ds[1]), B1(ds[1], ds[2])])
    else
      var rest := ToBytes(ds[4..]);
      if rest.None? then None else Some([B0(ds[0], ds[1]), B1(ds[1], ds[2]), B2(ds[2], ds[3])] + rest.value)
  }

  lemma ThreeBytes(a: int, b: int, c: int)
    requires IsByte(a) && IsByte(b) && IsByte(c)
    ensures B0(D0(a), D1(a, b)) == a && B1(D1(a, b), D2(b, c)) == b && B2(D2(b, c), D3(c)) == c
  {
  }

  lemma FourDigits(d: int, e: int, f: int, g: int)
    requires IsDigit(d) && IsDigit(e) && IsDigit(f) && IsDigit(g)
    ensures D0(B0(d, e)) == d && D1(B0(d, e), B1(e, f)) == e && D2(B1(e, f), B2(f, g)) == f && D3(B2(f, g)) == g
  {
  }

  lemma ToDigitsStep(a: int, b: int, c: int, rest: seq<int>)
    requires IsByte(a) && IsByte(b) && IsByte(c) && Bytes(rest)
    ensures ToDigits([a, b, c] + rest) == [D0(a), D1(a, b), D2(b, c), D3(c)] + ToDigits(rest)
  {
    assert ([a, b, c] + rest)[3..] == rest;
  }

  lemma ToBytesStep(d: int, e: int, f: int, g: int, rest: seq<int>)
    requires IsDigit(d) && IsDigit(e) && IsDigit(f) && IsDigit(g) && Digits(rest) && ToBytes(rest).Some?
    ensures ToBytes([d, e, f, g] + rest) == Some([B0(d, e), B1(e, f), B2(f, g)] + ToBytes(rest).value)
  {
    assert ([d, e, f, g] + rest)[4..] == rest;
  }

  lemma ThreeBytesRoundTrip(a: int, b: int, c: int, rest: seq<int>)
    requires IsByte(a) && IsByte(b) && IsByte(c) && Bytes(rest) && ToBytes(ToDigits(rest)) == Some(rest)
    ensures ToBytes(ToDigits([a, b, c] + rest)) == Some([a, b, c] + rest)
  {
    var d, e, f, g := D0(a), D1(a, b), D2(b, c), D3(c);
    ThreeBytes(a, b, c);
    ToDigitsStep(a, b, c, rest);
    ToBytesStep(d, e, f, g, ToDigits(rest));
  }

  lemma SingleByte(a: int)
    requires IsByte(a)
    ensures IsDigit(D0(a)) && IsDigit(D1(a, 0)) && B0(D0(a), D1(a, 0)) == a
  {
  }

  lemma TwoDigitsToByte(d: int, e: int)
    requires IsDigit(d) && IsDigit(e)
    ensures ToBytes([d, e]) == Some([B0(d, e)])
  {
  }

  lemma OneByte(a: int)
    requires IsByte(a)
    ensures ToBytes(ToDigits([a])) == Some([a])
  {
    SingleByte(a);
    TwoDigitsToByte(D0(a), D1(a, 0));
  }

  lemma TwoBytes(a: int, b: int)
    requires IsByte(a) && IsByte(b)
    ensures ToBytes(ToDigits([a, b])) == Some([a, b])
  {
    ThreeBytes(a, b, 0);
    assert ToDigits([a, b]) == [D0(a), D1(a, b), D2(b, 0)];
  }

  lemma {:induction false} BytesRoundTrip(bs: seq<int>)
    requires Bytes(bs)
    ensures ToBytes(ToDigits(bs)) == Some(bs)
  {
    if |bs| == 1 {
      OneByte(bs[0]);
      assert bs == [bs[0]];
    } else if |bs| == 2 {
      TwoBytes(bs[0], bs[1]);
      assert bs == [bs[0], bs[1]];
    } else if |bs| >= 3 {
      BytesRoundTrip(bs[3..]);
      ThreeBytesRoundTrip(bs[0], bs[1], bs[2], bs[3..]);
      assert bs == [bs[0], bs[1], bs[2]] + bs[3..];
    }
  }

  /** The unused bits of the last digit are zero. */
  predicate Tidy(ds: seq<int>) {
    if |ds| >= 4 then Tidy(ds[4..]) else (|ds| == 2 ==> ds[1] % 16 == 0) && (|ds| == 3 ==> ds[2] % 4 == 0)
  }

  lemma UnusedFourBits(d: int, e: int)
    requires IsDigit(d) && IsDigit(e)
    ensures D0(B0(d, e)) == d && (D1(B0(d, e), 0) == e <==> e % 16 == 0)
  {
    assert B0(d, e) / 4 == d && B0(d, e) % 4 == e / 16;
  }

  lemma UnusedTwoBits(d: int, e: int)
    requires IsDigit(d) && IsDigit(e)
    ensures D2(B1(d, e), 0) == e <==> e % 4 == 0
  {
    assert B1(d, e) % 16 == e / 4;
  }

  lemma TwoDigits(d: int, e: int)
    requires IsDigit(d) && IsDigit(e)
    ensures ToDigits(ToBytes([d, e]).value) == [d, e] <==> Tidy([d, e])
  {
    UnusedFourBits(d, e);
  }

  lemma ThreeDigits(d: int, e: int, f: int)
    requires IsDigit(d) && IsDigit(e) && IsDigit(f)
    ensures ToDigits(ToBytes([d, e, f]).value) == [d, e, f] <==> Tidy([d, e, f])
  {
    FourDigits(d, e, f, 0);
    UnusedTwoBits(e, f);
  }

  lemma FourDigitsRoundTrip(d: int, e: int, f: int, g: int, rest: seq<int>)
    requires IsDigit(d) && IsDigit(e) && IsDigit(f) && IsDigit(g) && Digits(rest) && ToBytes(rest).Some?
    ensures ToDigits(ToBytes([d, e, f, g] + rest).value) == [d, e, f, g] + ToDigits(ToBytes(rest).value)
  {
    FourDigits(d, e, f, g);
    ToBytesStep(d, e, f, g, rest);
    ToDigitsStep(B0(d, e), B1(e, f), B2(f, g), ToBytes(rest).value);
  }

  lemma {:induction false} DigitsRoundTrip(ds: seq<int>)
    requires Digits(ds) && ToBytes(ds).Some?
    ensures ToDigits(ToBytes(ds).value) == ds <==> Tidy(ds)
  {
    if |ds| == 2 {
      TwoDigits(ds[0], ds[1]);
      assert ds == [ds[0], ds[1]];
    } else if |ds| == 3 {
      ThreeDigits(ds[0], ds[1], ds[2]);
      assert ds == [ds[0], ds[1], ds[2]];
    } else if |ds| >= 4 {
      DigitsRoundTrip(ds[4..]);
      FourDigitsRoundTrip(ds[0], ds[1], ds[2], ds[3], ds[4..]);
      assert ds == [ds[0], ds[1], ds[2], ds[3]] + ds[4..];
      var back := ToDigits(ToBytes(ds[4..]).value);
      assert ([ds[0], ds[1], ds[2], ds[3]] + back)[4..] == back;
    }
  }

  // ---------- Text

  function Spell(ds: seq<int>): string
    requires Digits(ds)
  {
    seq(|ds|, i requires 0 <= i < |ds| => CharOf(ds[i]))
  }

  predicate LineBreak(c: char) { c == '\r' || c == '\n' }

  /** The digits of a text without its line breaks, or None at any other character outside the alphabet */
  function Read(s: string): (r: Option<seq<int>>)
    ensures r.Some? ==> Digits(r.value)
  {
    if s == "" then Some([])
    else
      var rest := Read(s[1..]);
      if rest.None? then None
      else if LineBreak(s[0]) then rest
      else if DigitOf(s[0]).None? then None
      else CharOfDigit(s[0]); Some([DigitOf(s[0]).value] + rest.value)
  }

  lemma {:induction false} ReadOfSpell(ds: seq<int>)
    requires Digits(ds)
    ensures Read(Spell(ds)) == Some(ds)
  {
    if ds != [] {
      ReadOfSpell(ds[1..]);
      assert Spell(ds)[1..] == Spell(ds[1..]);
      DigitOfChar(ds[0]);
      assert ds == [ds[0]] + ds[1..];
    }
  }

  predicate NoBreaks(s: string) { forall i :: 0 <= i < |s| ==> !LineBreak(s[i]) }

  lemma {:induction false} SpellOfRead(s: string)
    requires Read(s).Some?
    ensures |Read(s).value| <= |s| && (Spell(Read(s).value) == s <==> NoBreaks(s))
    ensures NoBreaks(s) <==> |Read(s).value| == |s|
  {
    if s != "" {
      SpellOfRead(s[1..]);
      assert s == [s[0]] + s[1..];
      var ds := Read(s).value;
      if LineBreak(s[0]) {
        assert !NoBreaks(s) && |Spell(ds)| == |ds| < |s|;
      } else {
        CharOfDigit(s[0]);
        assert ds[1..] == Read(s[1..]).value;
        assert Spell(ds) == [s[0]] + Spell(ds[1..]);
        assert NoBreaks(s) <==> NoBreaks(s[1..]);
        assert Spell(ds)[1..] == Spell(ds[1..]);
      }
    }
  }

  // ---------- Big-endian numbers

  function Exp(n: nat): nat {
    if n == 0 then 1 else 256 * Exp(n - 1)
  }

  function BigEndian(v: nat, n: nat): (bs: seq<int>)
    ensures |bs| == n && Bytes(bs)
  {
    if n == 0 then [] else BigEndian(v / 256, n - 1) + [v % 256]
  }

  function Value(bs: seq<int>): (v: nat)
    requires Bytes(bs)
    ensures v < Exp(|bs|)
  {
    if bs == [] then 0 else Value(bs[..|bs| - 1]) * 256 + bs[|bs| - 1]
  }

  lemma {:induction false} ValueOfBigEndian(v: nat, n: nat)
    requires v < Exp(n)
    ensures Value(BigEndian(v, n)) == v
  {
    if n > 0 {
      ValueOfBigEndian(v / 256, n - 1);
      assert BigEndian(v, n)[..n - 1] == BigEndian(v / 256, n - 1);
    }
  }

  lemma {:induction false} BigEndianOfValue(bs: seq<int>)
    requires Bytes(bs)
    ensures BigEndian(Value(bs), |bs|) == bs
  {
    if bs != [] {
      BigEndianOfValue(bs[..|bs| - 1]);
      assert bs == bs[..|bs| - 1] + [bs[|bs| - 1]];
    }
  }

  lemma WordIsEightBytes()
    ensures Exp(8) == WORD
  {
    assert Exp(2) == 65536;
    assert Exp(4) == 256 * (256 * Exp(2));
    assert Exp(6) == 256 * (256 * Exp(4));
    assert Exp(8) == 256 * (256 * Exp(6));
  }

  // ---------- Cursors

  function Encode(id: int): string
    requires id < HALF
  {
    if id < 1 then "" else Spell(ToDigits(BigEndian(id, 8)))
  }

  /** The eight bytes are read as a signed number. */
  function Decode(cursor: string): (r: Option<int>)
    ensures r.Some? ==> 1 <= r.value
  {
    var ds := Read(cursor);
    if ds.None? || ToBytes(ds.value).None? || |ToBytes(ds.value).value| != 8 then None
    else
      var v := Value(ToBytes(ds.value).value);
      var id := if v < HALF then v else v - WORD;
      if id < 1 then None else Some(id)
  }

  lemma DecodedFits(cursor: string)
    ensures Decode(cursor).Some? ==> 1 <= Decode(cursor).value < HALF
  {
    WordIsEightBytes();
  }

  lemma CursorRoundTrip(id: int)
    requires 1 <= id < HALF
    ensures Decode(Encode(id)) == Some(id)
  {
    WordIsEightBytes();
    ValueOfBigEndian(id, 8);
    BytesRoundTrip(BigEndian(id, 8));
    ReadOfSpell(ToDigits(BigEndian(id, 8)));
  }

  lemma EncodeInjective(a: int, b: int)
    requires 1 <= a < HALF && 1 <= b < HALF && Encode(a) == Encode(b)
    ensures a == b
  {
    CursorRoundTrip(a);
    CursorRoundTrip(b);
  }

  /** A cursor that decodes is the one that was issued exactly if it has no line breaks and no stray trailing bits. */
  lemma CanonicalCursor(cursor: string)
    requires Decode(cursor).Some? && Decode(cursor).value < HALF
    ensures cursor == Encode(Decode(cursor).value) <==> NoBreaks(cursor) && Tidy(Read(cursor).value)
  {
    WordIsEightBytes();
    var ds := Read(cursor).value;
    var bs := ToBytes(ds).value;
    BigEndianOfValue(bs);
    DigitsRoundTrip(ds);
    SpellOfRead(cursor);
    assert Encode(Decode(cursor).value) == Spell(ToDigits(bs));
    ReadOfSpell(ToDigits(bs));
  }

  // ---------- The issued cursor as a number

  /** The number that digits of base 64 stand for */
  function Number(ds: seq<int>): int {
    if ds == [] then 0 else Number(ds[..|ds| - 1]) * 64 + ds[|ds| - 1]
  }

  lemma NumberMore(ds: seq<int>, d: int)
    ensures Number(ds + [d]) == Number(ds) * 64 + d
  {
    assert (ds + [d])[..|ds|] == ds;
  }

  lemma ValueMore(bs: seq<int>, b: int)
    requires Bytes(bs) && IsByte(b)
    ensures Value(bs + [b]) == Value(bs) * 256 + b
  {
    assert (bs + [b])[..|bs|] == bs;
  }

  lemma NumberOfThree(ds: seq<int>, d: int, e: int, f: int)
    ensures Number(ds + [d, e, f]) == Number(ds) * 262_144 + d * 4096 + e * 64 + f
  {
    NumberMore(ds, d);
    NumberMore(ds + [d], e);
    NumberMore(ds + [d] + [e], f);
    assert ds + [d, e, f] == ds + [d] + [e] + [f];
  }

  lemma NumberOfFour(ds: seq<int>, d: int, e: int, f: int, g: int)
    ensures Number(ds + [d, e, f, g]) == Number(ds) * 16_777_216 + d * 262_144 + e * 4096 + f * 64 + g
  {
    NumberOfThree(ds, d, e, f);
    NumberMore(ds + [d, e, f], g);
    assert ds + [d, e, f, g] == ds + [d, e, f] + [g];
  }

  lemma ValueOfTwo(bs: seq<int>, a: int, b: int)
    requires Bytes(bs) && IsByte(a) && IsByte(b)
    ensures Value(bs + [a, b]) == Value(bs) * 65_536 + a * 256 + b
  {
    ValueMore(bs, a);
    ValueMore(bs + [a], b);
    assert bs + [a, b] == bs + [a] + [b];
  }

  lemma ValueOfThree(bs: seq<int>, a: int, b: int, c: int)
    requires Bytes(bs) && IsByte(a) && IsByte(b) && IsByte(c)
    ensures Value(bs + [a, b, c]) == Value(bs) * 16_777_216 + a * 65_536 + b * 256 + c
  {
    ValueOfTwo(bs, a, b);
    ValueMore(bs + [a, b], c);
    assert bs + [a, b, c] == bs + [a, b] + [c];
  }

  /** Three bytes and their four digits are the same number. */
  lemma GroupIsNumber(a: int, b: int, c: int)
    requires IsByte(a) && IsByte(b) && IsByte(c)
    ensures D0(a) * 262_144 + D1(a, b) * 4096 + D2(b, c) * 64 + D3(c) == a * 65_536 + b * 256 + c
  {
    assert a == a / 4 * 4 + a % 4 && b == b / 16 * 16 + b % 16 && c == c / 64 * 64 + c % 64;
  }

  lemma TwoByteDigits(bs: seq<int>)
    requires Bytes(bs) && |bs| == 2
    ensures ToDigits(bs) == [D0(bs[0]), D1(bs[0], bs[1]), D2(bs[1], 0)]
  {
  }

  lemma EightByteDigits(bs: seq<int>)
    requires Bytes(bs) && |bs| == 8
    ensures ToDigits(bs) == [D0(bs[0]), D1(bs[0], bs[1]), D2(bs[1], bs[2]), D3(bs[2])]
                          + [D0(bs[3]), D1(bs[3], bs[4]), D2(bs[4], bs[5]), D3(bs[5])]
                          + [D0(bs[6]), D1(bs[6], bs[7]), D2(bs[7], 0)]
  {
    assert bs == [bs[0], bs[1], bs[2]] + bs[3..] && bs[3..] == [bs[3], bs[4], bs[5]] + bs[6..];
    ToDigitsStep(bs[0], bs[1], bs[2], bs[3..]);
    ToDigitsStep(bs[3], bs[4], bs[5], bs[6..]);
    TwoByteDigits(bs[6..]);
  }

  lemma ElevenDigitNumber(bs: seq<int>)
    requires Bytes(bs) && |bs| == 8
    ensures Number(ToDigits(bs)) ==
            ((bs[0] * 65_536 + bs[1] * 256 + bs[2]) * 16_777_216 + bs[3] * 65_536 + bs[4] * 256 + bs[5]) * 262_144
            + (bs[6] * 256 + bs[7]) * 4
  {
    EightByteDigits(bs);
    var first := [D0(bs[0]), D1(bs[0], bs[1]), D2(bs[1], bs[2]), D3(bs[2])];
    var second := first + [D0(bs[3]), D1(bs[3], bs[4]), D2(bs[4], bs[5]), D3(bs[5])];
    assert [] + first == first;
    NumberOfFour([], D0(bs[0]), D1(bs[0], bs[1]), D2(bs[1], bs[2]), D3(bs[2]));
    NumberOfFour(first, D0(bs[3]), D1(bs[3], bs[4]), D2(bs[4], bs[5]), D3(bs[5]));
    NumberOfThree(second, D0(bs[6]), D1(bs[6], bs[7]), D2(bs[7], 0));
    GroupIsNumber(bs[0], bs[1], bs[2]);
    GroupIsNumber(bs[3], bs[4], bs[5]);
    GroupIsNumber(bs[6], bs[7], 0);
  }

  lemma EightByteValue(bs: seq<int>)
    requires Bytes(bs) && |bs| == 8
    ensures Value(bs) ==
            ((bs[0] * 65_536 + bs[1] * 256 + bs[2]) * 16_777_216 + bs[3] * 65_536 + bs[4] * 256 + bs[5]) * 65_536
            + bs[6] * 256 + bs[7]
  {
    assert [] + [bs[0], bs[1], bs[2]] == bs[..3];
    assert bs[..3] + [bs[3], bs[4], bs[5]] == bs[..6] && bs[..6] + [bs[6], bs[7]] == bs;
    ValueOfThree([], bs[0], bs[1], bs[2]);
    ValueOfThree(bs[..3], bs[3], bs[4], bs[5]);
    ValueOfTwo(bs[..6], bs[6], bs[7]);
  }

  lemma EightBytesAreNumber(bs: seq<int>)
    requires Bytes(bs) && |bs| == 8
    ensures Number(ToDigits(bs)) == 4 * Value(bs)
  {
    ElevenDigitNumber(bs);
    EightByteValue(bs);
  }

  /**
   The issued cursor spells the identifier in base 64: eleven characters of the alphabet, the most
   significant first, and two unused bits after the last.
   */
  lemma CursorSpellsTheNumber(id: int)
    requires 1 <= id < HALF
    ensures var ds := ToDigits(BigEndian(id, 8));
            && |ds| == |Encode(id)| == 11 && Number(ds) == 4 * id
            && forall k :: 0 <= k < 11 ==> Encode(id)[k] == CharOf(ds[k])
  {
    WordIsEightBytes();
    ValueOfBigEndian(id, 8);
    DigitCount(BigEndian(id, 8));
    EightBytesAreNumber(BigEndian(id, 8));
  }

  // ---------- All cursors of an identifier

  lemma {:induction false} ByteCount(ds: seq<int>)
    requires Digits(ds) && ToBytes(ds).Some?
    ensures |ToBytes(ds).value| == |ds| / 4 * 3 + (if |ds| % 4 == 0 then 0 else |ds| % 4 - 1)
  {
    if |ds| >= 4 {
      ByteCount(ds[4..]);
    }
  }

  lemma {:induction false} DigitCount(bs: seq<int>)
    requires Bytes(bs)
    ensures |ToDigits(bs)| == |bs| / 3 * 4 + (if |bs| % 3 == 0 then 0 else |bs| % 3 + 1)
  {
    if |bs| >= 3 {
      DigitCount(bs[3..]);
    }
  }

  /** The two low bits of the last of three left-over digits do not reach the bytes. */
  lemma {:induction false} LowBitsUnused(ds: seq<int>, e: int)
    requires Digits(ds) && |ds| % 4 == 3 && IsDigit(e) && e / 4 == ds[|ds| - 1] / 4
    ensures Digits(ds[|ds| - 1 := e]) && ToBytes(ds[|ds| - 1 := e]) == ToBytes(ds)
  {
    var es := ds[|ds| - 1 := e];
    if |ds| == 3 {
      assert B1(ds[1], e) == B1(ds[1], ds[2]);
    } else {
      LowBitsUnused(ds[4..], e);
      assert es[4..] == ds[4..][|ds[4..]| - 1 := e];
    }
  }

  lemma TidyEleven(ds: seq<int>)
    requires |ds| == 11
    ensures Tidy(ds) <==> ds[10] % 4 == 0
  {
    assert Tidy(ds) == Tidy(ds[4..]) && Tidy(ds[4..]) == Tidy(ds[4..][4..]);
    assert ds[4..][4..][2] == ds[10];
  }

  /** Eleven digits and the digits of the bytes they stand for differ at most in the last digit's low bits. */
  lemma ElevenDigits(ds: seq<int>)
    requires Digits(ds) && |ds| == 11 && ToBytes(ds).Some?
    ensures ToDigits(ToBytes(ds).value) == ds[10 := ds[10] / 4 * 4]
  {
    var e := ds[10] / 4 * 4;
    LowBitsUnused(ds, e);
    TidyEleven(ds[10 := e]);
    DigitsRoundTrip(ds[10 := e]);
  }

  predicate SameButLowBits(ds: seq<int>, es: seq<int>)
    requires |es| == 11
  {
    |ds| == 11 && ds[..10] == es[..10] && ds[10] / 4 == es[10] / 4
  }

  lemma EightBytes(ds: seq<int>, bs: seq<int>)
    requires Digits(ds) && Bytes(bs) && |bs| == 8 && |ToDigits(bs)| == 11
    ensures ToBytes(ds) == Some(bs) <==> SameButLowBits(ds, ToDigits(bs))
  {
    var es := ToDigits(bs);
    BytesRoundTrip(bs);
    ElevenDigits(es);
    assert es[10] == es[10] / 4 * 4;
    if ToBytes(ds) == Some(bs) {
      ByteCount(ds);
      ElevenDigits(ds);
    }
    if SameButLowBits(ds, es) {
      LowBitsUnused(ds, es[10]);
      assert ds[10 := es[10]] == es;
    }
  }

  /** The text without its line breaks */
  function Strip(s: string): (r: string)
    ensures NoBreaks(r)
  {
    if s == "" then "" else if LineBreak(s[0]) then Strip(s[1..]) else [s[0]] + Strip(s[1..])
  }

  lemma {:induction false} ReadOfStrip(s: string)
    ensures Read(Strip(s)) == Read(s)
  {
    if s != "" {
      ReadOfStrip(s[1..]);
      assert !LineBreak(s[0]) ==> Strip(s)[1..] == Strip(s[1..]);
    }
  }

  /** Line breaks never matter. */
  lemma LineBreaksAreSkipped(cursor: string)
    ensures Decode(Strip(cursor)) == Decode(cursor)
  {
    ReadOfStrip(cursor);
  }

  lemma DecodesBytes(cursor: string, id: int)
    requires 1 <= id < HALF
    ensures Decode(cursor) == Some(id) <==> Read(cursor).Some? && ToBytes(Read(cursor).value) == Some(BigEndian(id, 8))
  {
    WordIsEightBytes();
    ValueOfBigEndian(id, 8);
    if Read(cursor).Some? && ToBytes(Read(cursor).value).Some? && |ToBytes(Read(cursor).value).value| == 8 {
      BigEndianOfValue(ToBytes(Read(cursor).value).value);
    }
  }

  lemma SpelledDigits(text: string, ds: seq<int>)
    requires NoBreaks(text) && Read(text) == Some(ds)
    ensures |ds| == |text| && forall k :: 0 <= k < |text| ==>
            IsDigit(ds[k]) && text[k] == CharOf(ds[k]) && DigitOf(text[k]) == Some(ds[k])
  {
    SpellOfRead(text);
    forall k | 0 <= k < |text|
      ensures text[k] == CharOf(ds[k]) && DigitOf(text[k]) == Some(ds[k])
    {
      assert Spell(ds)[k] == CharOf(ds[k]);
      DigitOfChar(ds[k]);
    }
  }

  lemma {:induction false} ReadsDigits(text: string)
    requires forall k :: 0 <= k < |text| ==> DigitOf(text[k]).Some?
    ensures Read(text).Some? && NoBreaks(text)
  {
    if text != "" {
      ReadsDigits(text[1..]);
    }
  }

  /** Without line breaks, the text is the issued cursor up to the two low bits of its last digit. */
  predicate AlmostIssued(text: string, id: int)
    requires 1 <= id < HALF
  {
    var issued := Encode(id);
    && |text| == 11 == |issued| && text[..10] == issued[..10]
    && DigitOf(text[10]).Some? && DigitOf(issued[10]).Some?
    && DigitOf(text[10]).value / 4 == DigitOf(issued[10]).value / 4
  }

  lemma IssuedDigits(id: int)
    requires 1 <= id < HALF
    ensures var es := ToDigits(BigEndian(id, 8));
            |es| == 11 && Read(Encode(id)) == Some(es) && NoBreaks(Encode(id)) && |Encode(id)| == 11
  {
    DigitCount(BigEndian(id, 8));
    ReadOfSpell(ToDigits(BigEndian(id, 8)));
    SpellOfRead(Encode(id));
  }

  lemma SameTextSameDigits(text: string, other: string, ds: seq<int>, es: seq<int>, n: nat)
    requires NoBreaks(text) && NoBreaks(other) && Read(text) == Some(ds) && Read(other) == Some(es)
    requires n <= |text| == |ds| && n <= |other| == |es|
    ensures text[..n] == other[..n] <==> ds[..n] == es[..n]
  {
    SpelledDigits(text, ds);
    SpelledDigits(other, es);
    if text[..n] == other[..n] {
      forall k | 0 <= k < n ensures ds[k] == es[k] {
        assert text[k] == text[..n][k] == other[..n][k] == other[k];
      }
    }
    if ds[..n] == es[..n] {
      forall k | 0 <= k < n ensures text[k] == other[k] {
        assert ds[k] == ds[..n][k] == es[..n][k] == es[k];
      }
    }
  }

  lemma AlmostIssuedDigits(text: string, id: int)
    requires 1 <= id < HALF && NoBreaks(text) && Read(text).Some? && |ToDigits(BigEndian(id, 8))| == 11
    ensures AlmostIssued(text, id) <==> SameButLowBits(Read(text).value, ToDigits(BigEndian(id, 8)))
  {
    var ds, es := Read(text).value, ToDigits(BigEndian(id, 8));
    IssuedDigits(id);
    SpelledDigits(text, ds);
    if |text| == 11 {
      SameTextSameDigits(text, Encode(id), ds, es, 10);
      SpelledDigits(Encode(id), es);
    }
  }

  /**
   All cursors of an identifier: those that differ from the issued one only in line breaks and the
   last digit's low bits.
   */
  lemma CursorsOf(cursor: string, id: int)
    requires 1 <= id < HALF
    ensures Decode(cursor) == Some(id) <==> AlmostIssued(Strip(cursor), id)
  {
    var text := Strip(cursor);
    LineBreaksAreSkipped(cursor);
    DecodesBytes(text, id);
    IssuedDigits(id);
    if AlmostIssued(text, id) {
      AlmostIssuedReads(text, id);
    }
    if Read(text).Some? {
      EightBytes(Read(text).value, BigEndian(id, 8));
      AlmostIssuedDigits(text, id);
    }
  }

  lemma AlmostIssuedReads(text: string, id: int)
    requires 1 <= id < HALF && AlmostIssued(text, id)
    ensures Read(text).Some? && NoBreaks(text)
  {
    IssuedDigits(id);
    SpelledDigits(Encode(id), Read(Encode(id)).value);
    forall k | 0 <= k < |text|
      ensures DigitOf(text[k]).Some?
    {
      if k < 10 {
        assert text[k] == text[..10][k] == Encode(id)[..10][k] == Encode(id)[k];
      }
    }
    ReadsDigits(text);
  }

  lemma {:induction false} StripOfNoBreaks(s: string)
    requires NoBreaks(s)
    ensures Strip(s) == s
  {
    if s != "" {
      StripOfNoBreaks(s[1..]);
      assert s == [s[0]] + s[1..];
    }
  }

  /** Every identifier has four cursors without line breaks: any two low bits of the last digit will do. */
  lemma StrayBitsAreIgnored(id: int, t: int)
    requires 1 <= id < HALF && 0 <= t < 4
    ensures |Encode(id)| == 11 && DigitOf(Encode(id)[10]).Some?
    ensures var d := DigitOf(Encode(id)[10]).value / 4 * 4 + t;
            IsDigit(d) && Decode(Encode(id)[10 := CharOf(d)]) == Some(id)
  {
    IssuedDigits(id);
    SpelledDigits(Encode(id), Read(Encode(id)).value);
    var d := DigitOf(Encode(id)[10]).value / 4 * 4 + t;
    DigitOfChar(d);
    var cursor := Encode(id)[10 := CharOf(d)];
    assert AlmostIssued(cursor, id);
    StripOfNoBreaks(cursor);
    CursorsOf(cursor, id);
  }
}
