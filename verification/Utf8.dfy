/** `new TextEncoder().encode` and a fatal `new TextDecoder("utf-8").decode` on bytes (section 3 of RFC 3629). */
module Utf8 {
  import opened Results
  import opened Utf16

  newtype Byte = n: int | 0 <= n < 0x100

  const MARK: CodeUnit := 0xFEFF
  const MARK_BYTES: seq<Byte> := [0xEF, 0xBB, 0xBF]

  // ----- encoding -----

  predicate IsHalf(u: CodeUnit) {
    IsHighSurrogate(u) || IsLowSurrogate(u)
  }

  /** A code unit that is not half of a pair; a lone half becomes U+FFFD. */
  function EncodeUnit(u: CodeUnit): (r: seq<Byte>)
    ensures |r| == UnitBytes(u)
  {
    var c := (if IsHalf(u) then 0xFFFD else u) as int;
    if c < 0x80 then [c as Byte]
    else if c < 0x800 then [(0xC0 + c / 64) as Byte, (0x80 + c % 64) as Byte]
    else [(0xE0 + c / 4096) as Byte, (0x80 + c / 64 % 64) as Byte, (0x80 + c % 64) as Byte]
  }

  function EncodePair(high: CodeUnit, low: CodeUnit): (r: seq<Byte>)
    requires IsHighSurrogate(high) && IsLowSurrogate(low)
    ensures |r| == 4
  {
    var c := 0x1_0000 + (high as int - 0xD800) * 1024 + (low as int - 0xDC00);
    [(0xF0 + c / 262144) as Byte, (0x80 + c / 4096 % 64) as Byte, (0x80 + c / 64 % 64) as Byte, (0x80 + c % 64) as Byte]
  }

  function Encode(t: Text): (r: seq<Byte>)
    ensures |r| == ByteLength(t)
  {
    if t == [] then []
    else if PairAt(t, 0) then EncodePair(t[0], t[1]) + Encode(t[2..])
    else EncodeUnit(t[0]) + Encode(t[1..])
  }

  // ----- decoding -----

  predicate IsTail(b: Byte) {
    0x80 <= b < 0xC0
  }

  function Bits(b: Byte): int {
    b as int - 0x80
  }

  datatype Character = Character(units: Text, width: nat)

  /** The character the bytes start with; None where the decoder throws. */
  function First(b: seq<Byte>): (r: Option<Character>)
    requires b != []
    ensures r.Some? ==> 0 < r.value.width <= |b|
  {
    var lead := b[0] as int;
    if lead < 0x80 then Some(Character([lead as CodeUnit], 1))
    else if 0xC2 <= lead < 0xE0 && |b| >= 2 && IsTail(b[1]) then
      Some(Character([((lead - 0xC0) * 64 + Bits(b[1])) as CodeUnit], 2))
    else if 0xE0 <= lead < 0xF0 && |b| >= 3 && IsTail(b[1]) && IsTail(b[2]) then
      var c := (lead - 0xE0) * 4096 + Bits(b[1]) * 64 + Bits(b[2]);
      if c < 0x800 || 0xD800 <= c < 0xE000 then None else Some(Character([c as CodeUnit], 3))
    else if 0xF0 <= lead < 0xF5 && |b| >= 4 && IsTail(b[1]) && IsTail(b[2]) && IsTail(b[3]) then
      var c := (lead - 0xF0) * 262144 + Bits(b[1]) * 4096 + Bits(b[2]) * 64 + Bits(b[3]);
      if c < 0x1_0000 || c >= 0x11_0000 then None
      else Some(Character([(0xD800 + (c - 0x1_0000) / 1024) as CodeUnit, (0xDC00 + (c - 0x1_0000) % 1024) as CodeUnit], 4))
    else None
  }

  function DecodeAll(b: seq<Byte>): Option<Text> {
    if b == [] then Some([])
    else
      var first := First(b);
      if first.None? then None
      else
        var rest := DecodeAll(b[first.value.width..]);
        if rest.None? then None else Some(first.value.units + rest.value)
  }

  predicate HasMark(b: seq<Byte>) {
    MARK_BYTES <= b
  }

  /** The decoder drops one leading byte order mark. */
  function Decode(b: seq<Byte>): Option<Text> {
    DecodeAll(if HasMark(b) then b[3..] else b)
  }

  // ----- what survives a round trip -----

  /** The text with every lone half of a pair replaced. */
  function Scalar(t: Text): Text {
    if t == [] then []
    else if PairAt(t, 0) then t[..2] + Scalar(t[2..])
    else [if IsHalf(t[0]) then 0xFFFD else t[0]] + Scalar(t[1..])
  }

  predicate StartsWithMark(t: Text) {
    t != [] && t[0] == MARK
  }

  function WithoutMark(t: Text): Text {
    if StartsWithMark(t) then t[1..] else t
  }

  lemma Digits(c: int)
    requires 0 <= c < 0x11_0000
    ensures c == c / 262144 * 262144 + c / 4096 % 64 * 4096 + c / 64 % 64 * 64 + c % 64
    ensures 0 <= c / 262144 < 5
  {
    assert c / 4096 == c / 262144 * 64 + c / 4096 % 64;
    assert c / 64 == c / 4096 * 64 + c / 64 % 64;
    assert c == c / 64 * 64 + c % 64;
  }

  lemma FirstPair(high: CodeUnit, low: CodeUnit, rest: seq<Byte>)
    requires IsHighSurrogate(high) && IsLowSurrogate(low)
    ensures First(EncodePair(high, low) + rest) == Some(Character([high, low], 4))
  {
    var h, l := high as int - 0xD800, low as int - 0xDC00;
    var c := 0x1_0000 + h * 1024 + l;
    Digits(c);
    assert (c - 0x1_0000) / 1024 == h && (c - 0x1_0000) % 1024 == l;
  }

  lemma FirstUnit(u: CodeUnit, rest: seq<Byte>)
    ensures First(EncodeUnit(u) + rest) == Some(Character([if IsHalf(u) then 0xFFFD else u], UnitBytes(u)))
  {
    var c := (if IsHalf(u) then 0xFFFD else u) as int;
    assert c / 64 == c / 4096 * 64 + c / 64 % 64;
    assert c == c / 64 * 64 + c % 64;
  }

  lemma {:induction false} DecodeAllEncode(t: Text)
    ensures DecodeAll(Encode(t)) == Some(Scalar(t))
    decreases |t|
  {
    if t == [] {
    } else if PairAt(t, 0) {
      var head, rest := EncodePair(t[0], t[1]), Encode(t[2..]);
      FirstPair(t[0], t[1], rest);
      DecodeAllEncode(t[2..]);
      assert (head + rest)[4..] == rest && t[..2] == [t[0], t[1]];
    } else {
      var head, rest := EncodeUnit(t[0]), Encode(t[1..]);
      FirstUnit(t[0], rest);
      DecodeAllEncode(t[1..]);
      assert (head + rest)[UnitBytes(t[0])..] == rest;
    }
  }

  lemma MarkUnit(u: CodeUnit)
    ensures EncodeUnit(u) == MARK_BYTES <==> u == MARK
  {
    FirstUnit(u, []);
    assert EncodeUnit(u) + [] == EncodeUnit(u);
  }

  lemma LeadUnit(u: CodeUnit)
    ensures EncodeUnit(u)[0] == 0xEF ==> |EncodeUnit(u)| == 3
  {
  }

  /** Encoded text begins with the three bytes of a mark exactly when the text begins with U+FEFF. */
  lemma MarkEncoded(t: Text)
    ensures HasMark(Encode(t)) <==> StartsWithMark(t)
    ensures StartsWithMark(t) ==> Encode(t)[3..] == Encode(t[1..])
  {
    if t != [] && PairAt(t, 0) {
      assert Encode(t)[0] == EncodePair(t[0], t[1])[0] >= 0xF0;
    } else if t != [] {
      hide EncodeUnit;
      MarkUnit(t[0]);
      LeadUnit(t[0]);
      assert Encode(t)[0] == EncodeUnit(t[0])[0];
      if |EncodeUnit(t[0])| == 3 { assert Encode(t)[..3] == EncodeUnit(t[0]) && Encode(t)[3..] == Encode(t[1..]); }
    }
  }

  /** What is encoded and decoded again loses a leading mark and has its lone halves replaced. */
  lemma DecodeEncode(t: Text)
    ensures Decode(Encode(t)) == Some(WithoutMark(Scalar(t)))
    ensures StartsWithMark(Scalar(t)) <==> StartsWithMark(t)
  {
    MarkEncoded(t);
    DecodeAllEncode(if StartsWithMark(t) then t[1..] else t);
  }

  lemma ThreeInverse(lead: Byte, b1: Byte, b2: Byte, c: int)
    requires 0xE0 <= lead < 0xF0 && IsTail(b1) && IsTail(b2) && c == (lead as int - 0xE0) * 4096 + Bits(b1) * 64 + Bits(b2)
    requires 0x800 <= c && !(0xD800 <= c < 0xE000)
    ensures 0 <= c < 0x1_0000 && EncodeUnit(c as CodeUnit) == [lead, b1, b2]
  {
    assert c / 64 == (lead as int - 0xE0) * 64 + Bits(b1) && c % 64 == Bits(b2);
    assert c / 4096 == c / 64 / 64 == lead as int - 0xE0;
  }

  lemma FourInverse(lead: Byte, b1: Byte, b2: Byte, b3: Byte, c: int)
    requires 0xF0 <= lead < 0xF5 && IsTail(b1) && IsTail(b2) && IsTail(b3)
    requires c == (lead as int - 0xF0) * 262144 + Bits(b1) * 4096 + Bits(b2) * 64 + Bits(b3) && 0x1_0000 <= c < 0x11_0000
    ensures 0xD800 <= 0xD800 + (c - 0x1_0000) / 1024 < 0xDC00
    ensures EncodePair((0xD800 + (c - 0x1_0000) / 1024) as CodeUnit, (0xDC00 + (c - 0x1_0000) % 1024) as CodeUnit) == [lead, b1, b2, b3]
  {
    assert (c - 0x1_0000) / 1024 * 1024 + (c - 0x1_0000) % 1024 == c - 0x1_0000;
    assert c / 64 == (lead as int - 0xF0) * 4096 + Bits(b1) * 64 + Bits(b2) && c % 64 == Bits(b3);
    assert c / 4096 == c / 64 / 64 == (lead as int - 0xF0) * 64 + Bits(b1);
    assert c / 262144 == c / 4096 / 64 == lead as int - 0xF0;
  }

  lemma FirstInverse(b: seq<Byte>)
    requires b != [] && First(b).Some?
    ensures var c := First(b).value;
            match |c.units|
            case 1 => !IsHalf(c.units[0]) && EncodeUnit(c.units[0]) == b[..c.width]
            case 2 => IsHighSurrogate(c.units[0]) && IsLowSurrogate(c.units[1]) && EncodePair(c.units[0], c.units[1]) == b[..c.width]
            case _ => false
  {
    var lead := b[0] as int;
    if lead < 0x80 {
      assert b[..1] == [b[0]];
    } else if lead < 0xE0 {
      assert b[..2] == [b[0], b[1]];
    } else if lead < 0xF0 {
      hide EncodeUnit;
      assert b[..3] == [b[0], b[1], b[2]];
      ThreeInverse(b[0], b[1], b[2], (lead - 0xE0) * 4096 + Bits(b[1]) * 64 + Bits(b[2]));
    } else {
      hide EncodePair;
      assert b[..4] == [b[0], b[1], b[2], b[3]];
      FourInverse(b[0], b[1], b[2], b[3], (lead - 0xF0) * 262144 + Bits(b[1]) * 4096 + Bits(b[2]) * 64 + Bits(b[3]));
    }
  }

  /** Decoded bytes are the encoding of their text, which has no lone half. */
  lemma {:induction false} EncodeDecodeAll(b: seq<Byte>)
    requires DecodeAll(b).Some?
    ensures Encode(DecodeAll(b).value) == b && Scalar(DecodeAll(b).value) == DecodeAll(b).value
    decreases |b|
  {
    hide EncodeUnit, EncodePair, First;
    if b != [] {
      var c := First(b).value;
      var rest := DecodeAll(b[c.width..]).value;
      FirstInverse(b);
      EncodeDecodeAll(b[c.width..]);
      var t := c.units + rest;
      assert t[|c.units|..] == rest && b == b[..c.width] + b[c.width..];
      if |c.units| == 2 { assert PairAt(t, 0) && t[..2] == c.units; } else { assert !PairAt(t, 0); }
    }
  }

  /** So the bytes are the text's and, if there was one, the mark's. */
  lemma DecodedBytes(b: seq<Byte>)
    requires Decode(b).Some?
    ensures |b| == ByteLength(Decode(b).value) + if HasMark(b) then 3 else 0
    ensures Scalar(Decode(b).value) == Decode(b).value
  {
    EncodeDecodeAll(if HasMark(b) then b[3..] else b);
  }
}
