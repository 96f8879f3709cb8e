/** JavaScript strings as the repository's code sees them: sequences of UTF-16 code units. */
module Utf16 {
  newtype CodeUnit = n: int | 0 <= n < 0x1_0000
  type Text = seq<CodeUnit>

  const NEWLINE: CodeUnit := 10

  predicate IsHighSurrogate(u: CodeUnit) {
    0xD800 <= u < 0xDC00
  }

  predicate IsLowSurrogate(u: CodeUnit) {
    0xDC00 <= u < 0xE000
  }

  /** The high and low halves of one supplementary character start at index i. */
  predicate PairAt(t: Text, i: int) {
    0 <= i && i + 1 < |t| && IsHighSurrogate(t[i]) && IsLowSurrogate(t[i + 1])
  }

  /** Bytes of a code unit that is not half of a pair (a lone half becomes U+FFFD, three bytes). */
  function UnitBytes(u: CodeUnit): nat {
    if u < 0x80 then 1 else if u < 0x800 then 2 else 3
  }

  /** `new TextEncoder().encode(t).byteLength`. */
  function ByteLength(t: Text): nat {
    if t == [] then 0
    else if PairAt(t, 0) then 4 + ByteLength(t[2..])
    else UnitBytes(t[0]) + ByteLength(t[1..])
  }

  /** `parts.join("")`. */
  function Joined(parts: seq<Text>): Text {
    if parts == [] then [] else parts[0] + Joined(parts[1..])
  }

  /** The code units of an ASCII literal. */
  function Ascii(s: string): Text
    requires forall i :: 0 <= i < |s| ==> s[i] < '\U{80}'
  {
    seq(|s|, i requires 0 <= i < |s| => s[i] as CodeUnit)
  }

  lemma SamePrefix(a: Text, x: Text, b: Text, y: Text)
    requires a + x == b + y && |a| == |b|
    ensures a == b && x == y
  {
    assert (a + x)[..|a|] == a && (b + y)[..|b|] == b;
    assert (a + x)[|a|..] == x && (b + y)[|b|..] == y;
  }

  lemma SameFirst(u: CodeUnit, x: Text, w: CodeUnit, y: Text)
    requires [u] + x == [w] + y
    ensures u == w && x == y
  {
    SamePrefix([u], x, [w], y);
  }
}

module Results {
  datatype Option<+T> = None | Some(value: T)
  datatype Result<+T, +E> = Ok(value: T) | Err(error: E)
}
