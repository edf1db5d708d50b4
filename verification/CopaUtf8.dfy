/** UTF-8 as section 4 of RFC 3629 has it, with errors as long as the maximal subpart of section
    3.9 of the Unicode Standard. */
module CopaUtf8 {
  type Byte = b: nat | b < 256

  const ESC: Byte := 0x1B
  const REPLACEMENT: nat := 0xFFFD

  /** What a nonempty byte string starts with: a character, a sequence that no more bytes can
      complete, or one that more bytes might. */
  datatype Unit = Char(c: nat, len: nat) | Invalid(len: nat) | Incomplete

  predicate Continuation(b: Byte) { 0x80 <= b <= 0xBF }

  /** The length of the sequence that `lead` announces, 0 if it never starts one. */
  function Announced(lead: Byte): (n: nat)
    ensures n <= 4
  {
    if lead <= 0x7F then 1
    else if 0xC2 <= lead <= 0xDF then 2
    else if 0xE0 <= lead <= 0xEF then 3
    else if 0xF0 <= lead <= 0xF4 then 4
    else 0
  }

  /** Overlong forms, surrogates and values above U+10FFFF are ruled out by the second byte. */
  predicate SecondOk(lead: Byte, b: Byte) {
    Continuation(b)
    && (lead == 0xE0 ==> 0xA0 <= b) && (lead == 0xED ==> b <= 0x9F)
    && (lead == 0xF0 ==> 0x90 <= b) && (lead == 0xF4 ==> b <= 0x8F)
  }

  /** The bits of a byte behind its marker `base`. */
  function Bits(b: int, base: int): nat { if b < base then 0 else b - base }

  function Two(a: Byte, b: Byte): nat { Bits(a, 0xC0) * 0x40 + Bits(b, 0x80) }
  function Three(a: Byte, b: Byte, c: Byte): nat { (Bits(a, 0xE0) * 0x40 + Bits(b, 0x80)) * 0x40 + Bits(c, 0x80) }
  function Four(a: Byte, b: Byte, c: Byte, d: Byte): nat {
    ((Bits(a, 0xF0) * 0x40 + Bits(b, 0x80)) * 0x40 + Bits(c, 0x80)) * 0x40 + Bits(d, 0x80)
  }

  function Decode(s: seq<Byte>): (u: Unit)
    requires s != []
    ensures u.Char? ==> 0 < u.len <= |s| && u.len == Announced(s[0])
    ensures u.Invalid? ==> 0 < u.len <= |s| && u.len <= 3
    ensures u.Incomplete? ==> |s| <= 3
  {
    var n := Announced(s[0]);
    if n == 0 then Invalid(1)
    else if n == 1 then Char(s[0], 1)
    else if |s| == 1 then Incomplete
    else if !SecondOk(s[0], s[1]) then Invalid(1)
    else if n == 2 then Char(Two(s[0], s[1]), 2)
    else if |s| == 2 then Incomplete
    else if !Continuation(s[2]) then Invalid(2)
    else if n == 3 then Char(Three(s[0], s[1], s[2]), 3)
    else if |s| == 3 then Incomplete
    else if !Continuation(s[3]) then Invalid(3)
    else Char(Four(s[0], s[1], s[2], s[3]), 4)
  }

  predicate Scalar(c: nat) { c <= 0xD7FF || 0xE000 <= c <= 0x10FFFF }

  function Tail(c: nat): Byte { 0x80 + c % 0x40 }

  /** The encoding table of section 3 of RFC 3629. */
  function Encode(c: nat): (s: seq<Byte>)
    requires Scalar(c)
    ensures s != []
  {
    if c <= 0x7F then [c]
    else if c <= 0x7FF then [0xC0 + c / 0x40, Tail(c)]
    else if c <= 0xFFFF then [0xE0 + c / 0x40 / 0x40, Tail(c / 0x40), Tail(c)]
    else [0xF0 + c / 0x40 / 0x40 / 0x40, Tail(c / 0x40 / 0x40), Tail(c / 0x40), Tail(c)]
  }

  /** Every scalar value decodes from its encoding, whatever follows. */
  lemma EncodedDecodes(c: nat, rest: seq<Byte>)
    requires Scalar(c)
    ensures Decode(Encode(c) + rest) == Char(c, |Encode(c)|)
  {
    var s := Encode(c) + rest;
    assert forall i :: 0 <= i < |Encode(c)| ==> s[i] == Encode(c)[i];
    var c1, c2 := c / 0x40, c / 0x40 / 0x40;
    assert c == c1 * 0x40 + c % 0x40 && c1 == c2 * 0x40 + c1 % 0x40 && c2 == c2 / 0x40 * 0x40 + c2 % 0x40;
  }

  lemma Split(q: nat, b: Byte)
    requires Continuation(b)
    ensures (q * 0x40 + Bits(b, 0x80)) / 0x40 == q && Tail(q * 0x40 + Bits(b, 0x80)) == b
  {
  }

  /** What decodes is the encoding of a scalar value: no overlong form and no surrogate does. */
  lemma DecodedIsEncoding(s: seq<Byte>)
    requires s != [] && Decode(s).Char?
    ensures Scalar(Decode(s).c) && s[..Decode(s).len] == Encode(Decode(s).c)
  {
    hide Tail, Bits;
    match Announced(s[0])
    case 2 => DecodedTwo(s);
    case 3 => DecodedThree(s);
    case 4 => DecodedFour(s);
    case _ =>
  }

  lemma DecodedTwo(s: seq<Byte>)
    requires s != [] && Decode(s).Char? && Announced(s[0]) == 2
    ensures Scalar(Decode(s).c) && s[..2] == Encode(Decode(s).c)
  {
    Split(Bits(s[0], 0xC0), s[1]);
  }

  lemma DecodedThree(s: seq<Byte>)
    requires s != [] && Decode(s).Char? && Announced(s[0]) == 3
    ensures Scalar(Decode(s).c) && s[..3] == Encode(Decode(s).c)
  {
    var q := Bits(s[0], 0xE0) * 0x40 + Bits(s[1], 0x80);
    Split(Bits(s[0], 0xE0), s[1]);
    Split(q, s[2]);
  }

  lemma DecodedFour(s: seq<Byte>)
    requires s != [] && Decode(s).Char? && Announced(s[0]) == 4
    ensures Scalar(Decode(s).c) && s[..4] == Encode(Decode(s).c)
  {
    var q := Bits(s[0], 0xF0) * 0x40 + Bits(s[1], 0x80);
    var r := q * 0x40 + Bits(s[2], 0x80);
    Split(Bits(s[0], 0xF0), s[1]);
    Split(q, s[2]);
    Split(r, s[3]);
  }

  /** Later bytes do not change a decision. */
  lemma DecodeStable(s: seq<Byte>, rest: seq<Byte>)
    requires s != [] && !Decode(s).Incomplete?
    ensures Decode(s + rest) == Decode(s)
  {
    assert forall i :: 0 <= i < |s| ==> (s + rest)[i] == s[i];
  }

  /** What is incomplete can be completed: it is a proper prefix of a character's encoding. */
  lemma IncompleteIsPrefix(s: seq<Byte>) returns (c: nat)
    requires s != [] && Decode(s).Incomplete?
    ensures Scalar(c) && s < Encode(c)
  {
    var second: Byte := if s[0] == 0xE0 then 0xA0 else if s[0] == 0xF0 then 0x90 else 0x80;
    var t := if |s| == 1 then s + [second] else s;
    var full := if Announced(s[0]) == 2 then t else if Announced(s[0]) == 3 then (if |t| == 2 then t + [0x80] else t)
                else if |t| == 2 then t + [0x80, 0x80] else if |t| == 3 then t + [0x80] else t;
    assert Decode(full).Char? && s < full;
    DecodedIsEncoding(full);
    c := Decode(full).c;
    assert full[..Decode(full).len] == full;
  }

  /** Every byte of a sequence after the first, and every byte that an incomplete or broken one
      covers, is a continuation byte. */
  lemma InnerBytes(s: seq<Byte>, i: nat)
    requires s != [] && 0 < i < |s|
    requires match Decode(s) case Char(_, len) => i < len case Invalid(len) => i < len case Incomplete => true
    ensures Continuation(s[i])
  {
  }
}
