/** Which byte strings are UTF-8: those that encode Unicode scalar values (RFC 3629, section 3). */
module Utf8 {
  import opened VolumeNames

  predicate IsScalar(c: int) {
    0 <= c <= 0x10FFFF && !(0xD800 <= c <= 0xDFFF)
  }

  /** The byte that continues a sequence with six bits of a value. */
  function Low(c: nat): char {
    (0x80 + c % 64) as char
  }

  /** The shortest form of a value. */
  function Encoded(c: int): (s: string)
    requires IsScalar(c)
    ensures 1 <= |s| <= 4
  {
    if c < 0x80 then [c as char]
    else if c < 0x800 then [(0xC0 + c / 64) as char, Low(c)]
    else if c < 0x10000 then [(0xE0 + c / 4096) as char, Low(c / 64), Low(c)]
    else [(0xF0 + c / 262144) as char, Low(c / 4096), Low(c / 64), Low(c)]
  }

  predicate AreScalars(text: seq<int>) {
    forall i | 0 <= i < |text| :: IsScalar(text[i])
  }

  function EncodedAll(text: seq<int>): string
    requires AreScalars(text)
  {
    if text == [] then "" else Encoded(text[0]) + EncodedAll(text[1..])
  }

  // ---------- one value ----------

  /** The bits of a byte below its marker, or none. */
  function Bits(s: string, i: nat, marker: int): int {
    if i < |s| then s[i] as int - marker else 0
  }

  /** The value a sequence of the given length stands for. */
  function Decoded(s: string, n: nat): int {
    if n == 1 then Bits(s, 0, 0)
    else if n == 2 then Bits(s, 0, 0xC0) * 64 + Bits(s, 1, 0x80)
    else if n == 3 then Bits(s, 0, 0xE0) * 4096 + Bits(s, 1, 0x80) * 64 + Bits(s, 2, 0x80)
    else Bits(s, 0, 0xF0) * 262144 + Bits(s, 1, 0x80) * 4096 + Bits(s, 2, 0x80) * 64 + Bits(s, 3, 0x80)
  }

  lemma TwoBits(a: nat, b: nat)
    requires b < 64
    ensures (a * 64 + b) / 64 == a && (a * 64 + b) % 64 == b
  {
  }

  lemma ThreeBits(a: nat, b: nat, c: nat)
    requires b < 64 && c < 64
    ensures var v := a * 4096 + b * 64 + c; v / 4096 == a && v / 64 % 64 == b && v % 64 == c
  {
    TwoBits(a * 64 + b, c);
    TwoBits(a, b);
  }

  lemma FourBits(a: nat, b: nat, c: nat, d: nat)
    requires b < 64 && c < 64 && d < 64
    ensures var v := a * 262144 + b * 4096 + c * 64 + d;
            v / 262144 == a && v / 4096 % 64 == b && v / 64 % 64 == c && v % 64 == d
  {
    TwoBits(a * 4096 + b * 64 + c, d);
    ThreeBits(a, b, c);
    var v := a * 262144 + b * 4096 + c * 64 + d;
    assert v / 64 == a * 4096 + b * 64 + c;
    assert v / 4096 == v / 64 / 64 && v / 262144 == v / 64 / 4096;
  }

  /** A sequence at the begin of the text is the form of the value it stands for. */
  lemma RuneIsEncoded(s: string)
    requires RuneLength(s) > 0
    ensures var n := RuneLength(s); IsScalar(Decoded(s, n)) && Encoded(Decoded(s, n)) == s[..n]
  {
    var n := RuneLength(s);
    if n == 2 {
      TwoBits(Bits(s, 0, 0xC0), Bits(s, 1, 0x80));
    } else if n == 3 {
      ThreeBits(Bits(s, 0, 0xE0), Bits(s, 1, 0x80), Bits(s, 2, 0x80));
    } else if n == 4 {
      FourBits(Bits(s, 0, 0xF0), Bits(s, 1, 0x80), Bits(s, 2, 0x80), Bits(s, 3, 0x80));
    }
  }

  /** And every form of a value is such a sequence. */
  lemma EncodedIsRune(c: int, rest: string)
    requires IsScalar(c)
    ensures RuneLength(Encoded(c) + rest) == |Encoded(c)|
  {
    var s := Encoded(c) + rest;
    assert forall i | 0 <= i < |Encoded(c)| :: s[i] == Encoded(c)[i];
    if 0x800 <= c < 0x10000 {
      ThreeBytes(c);
    } else if c >= 0x10000 {
      FourBytes(c);
    }
  }

  /** The ranges that rule out overlong forms, surrogates and values beyond the last one. */
  lemma ThreeBytes(c: int)
    requires 0x800 <= c < 0x10000 && IsScalar(c)
    ensures c / 4096 < 16 && (c / 4096 == 0 ==> c / 64 % 64 >= 0x20) && (c / 4096 == 13 ==> c / 64 % 64 < 0x20)
  {
  }

  lemma FourBytes(c: int)
    requires 0x10000 <= c <= 0x10FFFF
    ensures c / 262144 <= 4 && (c / 262144 == 0 ==> c / 4096 % 64 >= 0x10) && (c / 262144 == 4 ==> c / 4096 % 64 < 0x10)
  {
  }

  // ---------- whole texts ----------

  lemma {:induction false} ValidIsEncoded(s: string) returns (text: seq<int>)
    requires ValidUtf8(s)
    ensures AreScalars(text) && EncodedAll(text) == s
    decreases |s|
  {
    text := [];
    if s != "" {
      var n := RuneLength(s);
      RuneIsEncoded(s);
      var rest := ValidIsEncoded(s[n..]);
      text := [Decoded(s, n)] + rest;
      assert text[1..] == rest && s[..n] + s[n..] == s;
    }
  }

  lemma {:induction false} EncodedIsValid(text: seq<int>)
    requires AreScalars(text)
    ensures ValidUtf8(EncodedAll(text))
    decreases |text|
  {
    if text != [] {
      var c, rest := text[0], text[1..];
      EncodedIsValid(rest);
      EncodedIsRune(c, EncodedAll(rest));
      assert (Encoded(c) + EncodedAll(rest))[|Encoded(c)|..] == EncodedAll(rest);
    }
  }

  /** A byte string is valid exactly if it encodes some sequence of Unicode scalar values. */
  lemma ValidUtf8Iff(s: string)
    ensures ValidUtf8(s) <==> exists text: seq<int> :: AreScalars(text) && EncodedAll(text) == s
  {
    if ValidUtf8(s) {
      var text := ValidIsEncoded(s);
    }
    if exists text: seq<int> :: AreScalars(text) && EncodedAll(text) == s {
      var text: seq<int> :| AreScalars(text) && EncodedAll(text) == s;
      EncodedIsValid(text);
    }
  }
}
