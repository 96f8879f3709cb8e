/** The canonical JSON printer whose text equality stands for value equality
    (repository-check-compatibility.ts; the probe runner and the snapshot carry the same function). */
module CanonicalJson {
  import opened Utf16

  /** A number is represented by its ECMAScript text, which identifies every finite number. */
  datatype Json =
    | Null
    | Boolean(value: bool)
    | Number(numeral: Text)
    | String(text: Text)
    | Array(items: seq<Json>)
    | Object(members: seq<Member>)
  datatype Member = Member(key: Text, value: Json)

  const QUOTE: CodeUnit := 0x22
  const BACKSLASH: CodeUnit := 0x5C
  const COMMA: CodeUnit := 0x2C
  const COLON: CodeUnit := 0x3A
  const OPEN_BRACKET: CodeUnit := 0x5B
  const CLOSE_BRACKET: CodeUnit := 0x5D
  const OPEN_BRACE: CodeUnit := 0x7B
  const CLOSE_BRACE: CodeUnit := 0x7D
  const NULL_TEXT: Text := [0x6E, 0x75, 0x6C, 0x6C]
  const TRUE_TEXT: Text := [0x74, 0x72, 0x75, 0x65]
  const FALSE_TEXT: Text := [0x66, 0x61, 0x6C, 0x73, 0x65]

  predicate IsDigit(u: CodeUnit) { 0x30 <= u <= 0x39 }

  /** Digits, sign, point and exponent mark. */
  predicate IsNumeralUnit(u: CodeUnit) {
    IsDigit(u) || u == 0x2B || u == 0x2D || u == 0x2E || u == 0x65
  }

  predicate IsNumeral(t: Text) {
    t != [] && (IsDigit(t[0]) || t[0] == 0x2D) && forall i :: 0 <= i < |t| ==> IsNumeralUnit(t[i])
  }

  predicate DistinctKeys(members: seq<Member>) {
    forall i, j :: 0 <= i < j < |members| ==> members[i].key != members[j].key
  }

  /** Values that JSON.parse and the decoders can produce. */
  predicate WellFormed(v: Json) {
    match v
    case Number(numeral) => IsNumeral(numeral)
    case Array(items) => forall i :: 0 <= i < |items| ==> WellFormed(items[i])
    case Object(members) => DistinctKeys(members) && forall i :: 0 <= i < |members| ==> WellFormed(members[i].value)
    case _ => true
  }

  /** Equal up to the order of object keys. */
  predicate Equivalent(v: Json, w: Json) {
    match (v, w)
    case (Array(vs), Array(ws)) => |vs| == |ws| && forall i :: 0 <= i < |vs| ==> Equivalent(vs[i], ws[i])
    case (Object(vs), Object(ws)) =>
      |vs| == |ws| && forall i :: 0 <= i < |vs| ==>
        exists j :: 0 <= j < |ws| && vs[i].key == ws[j].key && Equivalent(vs[i].value, ws[j].value)
    case _ => v == w
  }

  // ----- key order -----

  /** `left < right` on strings: lexicographic by code unit. */
  predicate Before(a: Text, b: Text) {
    b != [] && (a == [] || a[0] < b[0] || (a[0] == b[0] && Before(a[1..], b[1..])))
  }

  function Insert(sorted: seq<Member>, m: Member): seq<Member> {
    if sorted == [] || Before(m.key, sorted[0].key) then [m] + sorted
    else [sorted[0]] + Insert(sorted[1..], m)
  }

  function Sort(members: seq<Member>): seq<Member> {
    if members == [] then [] else Insert(Sort(members[..|members| - 1]), members[|members| - 1])
  }

  // ----- printing -----

  function HexDigit(n: int): CodeUnit
    requires 0 <= n < 16
  {
    if n < 10 then (0x30 + n) as CodeUnit else (0x61 + n - 10) as CodeUnit
  }

  function UnicodeEscape(u: CodeUnit): Text {
    var n := u as int;
    [BACKSLASH, 0x75, HexDigit(n / 4096), HexDigit(n / 256 % 16), HexDigit(n / 16 % 16), HexDigit(n % 16)]
  }

  function EscapeUnit(u: CodeUnit): Text {
    if u == QUOTE || u == BACKSLASH then [BACKSLASH, u]
    else if u == 8 then [BACKSLASH, 0x62]
    else if u == 9 then [BACKSLASH, 0x74]
    else if u == 10 then [BACKSLASH, 0x6E]
    else if u == 12 then [BACKSLASH, 0x66]
    else if u == 13 then [BACKSLASH, 0x72]
    else if u < 0x20 || IsHighSurrogate(u) || IsLowSurrogate(u) then UnicodeEscape(u)
    else [u]
  }

  /** The body of JSON.stringify on a string: surrogate pairs are kept, lone surrogates escaped. */
  function Escaped(t: Text): Text {
    if t == [] then []
    else if PairAt(t, 0) then t[..2] + Escaped(t[2..])
    else EscapeUnit(t[0]) + Escaped(t[1..])
  }

  function Quoted(t: Text): Text {
    [QUOTE] + Escaped(t) + [QUOTE]
  }

  lemma InsertMembers(sorted: seq<Member>, m: Member)
    ensures forall x :: x in Insert(sorted, m) <==> x == m || x in sorted
    ensures |Insert(sorted, m)| == |sorted| + 1
  {
    if sorted != [] {
      assert forall x :: x in sorted <==> x == sorted[0] || x in sorted[1..];
    }
  }

  lemma SortMembers(members: seq<Member>)
    ensures forall x :: x in Sort(members) <==> x in members
    ensures |Sort(members)| == |members|
  {
    if members != [] {
      var front, last := members[..|members| - 1], members[|members| - 1];
      InsertMembers(Sort(front), last);
      assert members == front + [last];
    }
  }

  function Print(v: Json): Text
    decreases v, 1
  {
    match v
    case Null => NULL_TEXT
    case Boolean(b) => if b then TRUE_TEXT else FALSE_TEXT
    case Number(numeral) => numeral
    case String(t) => Quoted(t)
    case Array(items) => [OPEN_BRACKET] + PrintItems(v, items) + [CLOSE_BRACKET]
    case Object(members) =>
      SortMembers(members);
      [OPEN_BRACE] + PrintMembers(v, Sort(members)) + [CLOSE_BRACE]
  }

  /** Items joined by commas. */
  function PrintItems(v: Json, items: seq<Json>): Text
    requires v.Array? && forall x :: x in items ==> x in v.items
    decreases v, 0, |items|
  {
    if items == [] then []
    else
    assert items[0] in v.items;
    if |items| == 1 then Print(items[0])
    else Print(items[0]) + [COMMA] + PrintItems(v, items[1..])
  }

  function PrintMember(v: Json, m: Member): Text
    requires v.Object? && m in v.members
    decreases v, 0, 0
  {
    Quoted(m.key) + [COLON] + Print(m.value)
  }

  /** Members joined by commas. */
  function PrintMembers(v: Json, members: seq<Member>): Text
    requires v.Object? && forall m :: m in members ==> m in v.members
    decreases v, 0, |members| + 1
  {
    if members == [] then []
    else if |members| == 1 then PrintMember(v, members[0])
    else PrintMember(v, members[0]) + [COMMA] + PrintMembers(v, members[1..])
  }
}
