/** Reading JSON text back: what the canonical printer prints is JSON for the value it was given. */
module JsonReader {
  import opened Results
  import opened Utf16
  import opened CanonicalJson
  import opened JsonInjective

  // ----- the reader -----

  /** A hexadecimal digit. */
  function HexOf(u: CodeUnit): Option<nat> {
    if 0x30 <= u <= 0x39 then Some(u as nat - 0x30)
    else if 0x61 <= u <= 0x66 then Some(u as nat - 0x61 + 10)
    else if 0x41 <= u <= 0x46 then Some(u as nat - 0x41 + 10)
    else None
  }

  /** Four hexadecimal digits. */
  function FourHex(t: Text): Option<CodeUnit> {
    if |t| < 4 || HexOf(t[0]).None? || HexOf(t[1]).None? || HexOf(t[2]).None? || HexOf(t[3]).None? then None
    else
      var n := HexOf(t[0]).value * 4096 + HexOf(t[1]).value * 256 + HexOf(t[2]).value * 16 + HexOf(t[3]).value;
      if n < 0x1_0000 then Some(n as CodeUnit) else None
  }

  /** What a backslash and this letter stand for, but for u. */
  function Escape(u: CodeUnit): Option<CodeUnit> {
    if u == 0x22 || u == 0x5C || u == 0x2F then Some(u)
    else if u == 0x62 then Some(8)
    else if u == 0x66 then Some(12)
    else if u == 0x6E then Some(10)
    else if u == 0x72 then Some(13)
    else if u == 0x74 then Some(9)
    else None
  }

  /** The units of a string up to its closing quote, and what follows it. */
  function ReadUnits(t: Text): (r: Option<(Text, Text)>)
    ensures r.Some? ==> |r.value.1| < |t|
  {
    if t == [] then None
    else if t[0] == 0x22 then Some(([], t[1..]))
    else if t[0] == 0x5C then
      if |t| < 2 then None
      else if t[1] == 0x75 then
        var u := FourHex(t[2..]);
        if u.None? then None else Prefixed(u.value, ReadUnits(t[6..]))
      else
        var u := Escape(t[1]);
        if u.None? then None else Prefixed(u.value, ReadUnits(t[2..]))
    else if t[0] < 0x20 then None
    else Prefixed(t[0], ReadUnits(t[1..]))
  }

  function Prefixed(u: CodeUnit, r: Option<(Text, Text)>): Option<(Text, Text)> {
    if r.None? then None else Some(([u] + r.value.0, r.value.1))
  }

  /** A digit, a sign, the point or the exponent mark. */
  predicate InNumeral(u: CodeUnit) {
    0x30 <= u <= 0x39 || u == 0x2B || u == 0x2D || u == 0x2E || u == 0x65
  }

  /** How far a numeral goes. */
  function NumeralLength(t: Text): (n: nat)
    ensures n <= |t|
  {
    if t == [] || !InNumeral(t[0]) then 0 else 1 + NumeralLength(t[1..])
  }

  function ReadValue(t: Text): (r: Option<(Json, Text)>)
    ensures r.Some? ==> |r.value.1| < |t|
    decreases |t|, 0
  {
    if t == [] then None
    else if |t| >= 4 && t[..4] == [0x6E, 0x75, 0x6C, 0x6C] then Some((Null, t[4..]))
    else if |t| >= 4 && t[..4] == [0x74, 0x72, 0x75, 0x65] then Some((Boolean(true), t[4..]))
    else if |t| >= 5 && t[..5] == [0x66, 0x61, 0x6C, 0x73, 0x65] then Some((Boolean(false), t[5..]))
    else if t[0] == 0x22 then
      var s := ReadUnits(t[1..]);
      if s.None? then None else Some((String(s.value.0), s.value.1))
    else if t[0] == 0x5B then
      if |t| > 1 && t[1] == 0x5D then Some((Array([]), t[2..]))
      else
        var items := ReadItems(t[1..]);
        if items.None? then None else Some((Array(items.value.0), items.value.1))
    else if t[0] == 0x7B then
      if |t| > 1 && t[1] == 0x7D then Some((Object([]), t[2..]))
      else
        var members := ReadMembers(t[1..]);
        if members.None? then None else Some((Object(members.value.0), members.value.1))
    else if NumeralLength(t) == 0 then None
    else Some((Number(t[..NumeralLength(t)]), t[NumeralLength(t)..]))
  }

  /** Values with commas between them, up to the closing bracket. */
  function ReadItems(t: Text): (r: Option<(seq<Json>, Text)>)
    ensures r.Some? ==> |r.value.1| < |t|
    decreases |t|, 1
  {
    var first := ReadValue(t);
    if first.None? || first.value.1 == [] then None
    else
      var (v, rest) := first.value;
      if rest[0] == 0x5D then Some(([v], rest[1..]))
      else if rest[0] != 0x2C then None
      else
        var more := ReadItems(rest[1..]);
        if more.None? then None else Some(([v] + more.value.0, more.value.1))
  }

  /** A key, a colon and a value. */
  function ReadMember(t: Text): (r: Option<(Member, Text)>)
    ensures r.Some? ==> |r.value.1| < |t|
    decreases |t|, 1
  {
    if t == [] || t[0] != 0x22 then None
    else
      var key := ReadUnits(t[1..]);
      if key.None? || key.value.1 == [] || key.value.1[0] != 0x3A then None
      else
        var value := ReadValue(key.value.1[1..]);
        if value.None? then None else Some((Member(key.value.0, value.value.0), value.value.1))
  }

  /** Members with commas between them, up to the closing brace. */
  function ReadMembers(t: Text): (r: Option<(seq<Member>, Text)>)
    ensures r.Some? ==> |r.value.1| < |t|
    decreases |t|, 2
  {
    var first := ReadMember(t);
    if first.None? || first.value.1 == [] then None
    else
      var (m, rest) := first.value;
      if rest[0] == 0x7D then Some(([m], rest[1..]))
      else if rest[0] != 0x2C then None
      else
        var more := ReadMembers(rest[1..]);
        if more.None? then None else Some(([m] + more.value.0, more.value.1))
  }

  // ----- strings -----

  lemma HexRead(n: int)
    requires 0 <= n < 16
    ensures HexOf(HexDigit(n)) == Some(n)
  {
  }

  lemma UnicodeRead(u: CodeUnit, r: Text)
    ensures FourHex((UnicodeEscape(u) + r)[2..]) == Some(u) && (UnicodeEscape(u) + r)[6..] == r
  {
    hide HexOf, HexDigit;
    var n := u as int;
    var t := (UnicodeEscape(u) + r)[2..];
    HexRead(n / 4096);
    HexRead(n / 256 % 16);
    HexRead(n / 16 % 16);
    HexRead(n % 16);
    HexValue(n);
    assert t[0] == HexDigit(n / 4096) && t[1] == HexDigit(n / 256 % 16) && t[2] == HexDigit(n / 16 % 16) && t[3] == HexDigit(n % 16);
  }

  lemma UnitRead(u: CodeUnit, r: Text)
    ensures ReadUnits(EscapeUnit(u) + r) == Prefixed(u, ReadUnits(r))
  {
    hide FourHex, UnicodeEscape;
    var e := EscapeUnit(u);
    var t := e + r;
    UnicodeHead(u);
    if e == UnicodeEscape(u) {
      UnicodeRead(u, r);
    } else if |e| == 2 {
      assert t[2..] == r;
    } else {
      assert t[1..] == r;
    }
  }

  lemma UnicodeHead(u: CodeUnit)
    ensures var e := UnicodeEscape(u);
            |e| == 6 && e[0] == 0x5C && e[1] == 0x75
  {
  }

  lemma PairRead(a: CodeUnit, b: CodeUnit, r: Text)
    requires IsHighSurrogate(a) && IsLowSurrogate(b)
    ensures ReadUnits([a, b] + r) == Prefixed(a, Prefixed(b, ReadUnits(r)))
  {
    assert ([a, b] + r)[1..] == [b] + r && ([b] + r)[1..] == r;
  }

  lemma ClosingQuote(r: Text)
    ensures ReadUnits([0x22] + r) == Some(([], r))
  {
    assert ([0x22] + r)[1..] == r;
  }

  /** A printed string reads back as itself. */
  lemma {:induction false} UnitsRead(t: Text, r: Text)
    ensures ReadUnits(Escaped(t) + [0x22] + r) == Some((t, r))
    decreases |t|
  {
    hide ReadUnits, EscapeUnit, IsHighSurrogate, IsLowSurrogate;
    if t == [] {
      assert Escaped(t) + [0x22] + r == [0x22] + r;
      ClosingQuote(r);
    } else if PairAt(t, 0) {
      UnitsRead(t[2..], r);
      var rest := Escaped(t[2..]) + [0x22] + r;
      assert t[..2] == [t[0], t[1]];
      assert Escaped(t) + [0x22] + r == [t[0], t[1]] + rest;
      PairRead(t[0], t[1], rest);
      assert t == [t[0]] + ([t[1]] + t[2..]);
    } else {
      UnitsRead(t[1..], r);
      var rest := Escaped(t[1..]) + [0x22] + r;
      assert Escaped(t) + [0x22] + r == EscapeUnit(t[0]) + rest;
      UnitRead(t[0], rest);
      assert t == [t[0]] + t[1..];
    }
  }

  lemma StringRead(t: Text, r: Text)
    ensures (Quoted(t) + r)[0] == 0x22 && ReadUnits((Quoted(t) + r)[1..]) == Some((t, r))
  {
    UnitsRead(t, r);
    assert (Quoted(t) + r)[1..] == Escaped(t) + [0x22] + r;
  }

  lemma {:induction false} NumeralRead(a: Text, r: Text)
    requires (forall i :: 0 <= i < |a| ==> IsNumeralUnit(a[i])) && Stops(r)
    ensures NumeralLength(a + r) == |a|
  {
    if a == [] {
      assert a + r == r;
    } else {
      assert (a + r)[1..] == a[1..] + r;
      NumeralRead(a[1..], r);
    }
  }

  // ----- values -----

  /** The first of two strings comes first: it is the beginning of the other or is less where they first differ. */
  ghost predicate Less(a: Text, b: Text) {
    exists k :: 0 <= k <= |a| && k <= |b| && a[..k] == b[..k] && k < |b| && (k == |a| || a[k] < b[k])
  }

  lemma {:induction false} BeforeIsLess(a: Text, b: Text)
    requires Before(a, b)
    ensures Less(a, b)
  {
    if a != [] && a[0] == b[0] {
      BeforeIsLess(a[1..], b[1..]);
      var k :| 0 <= k <= |a[1..]| && k <= |b[1..]| && a[1..][..k] == b[1..][..k] && k < |b[1..]|
               && (k == |a[1..]| || a[1..][k] < b[1..][k]);
      assert a[..k + 1] == [a[0]] + a[1..][..k] && b[..k + 1] == [b[0]] + b[1..][..k];
    } else {
      assert a[..0] == b[..0];
    }
  }

  /** Every object lists its keys in ascending order. */
  ghost predicate Canonical(v: Json) {
    match v
    case Array(items) => forall i :: 0 <= i < |items| ==> Canonical(items[i])
    case Object(members) =>
      && (forall i, j :: 0 <= i < j < |members| ==> Less(members[i].key, members[j].key))
      && forall i :: 0 <= i < |members| ==> Canonical(members[i].value)
    case _ => true
  }

  /** The words and the first unit of anything else. */
  lemma WordsRead(v: Json, r: Text)
    requires v.Null? || v.Boolean?
    ensures ReadValue(Print(v) + r) == Some((v, r))
  {
    var t := Print(v) + r;
    assert t[..|Print(v)|] == Print(v) && t[|Print(v)|..] == r;
    if v == Boolean(false) { assert t[..4] == [0x66, 0x61, 0x6C, 0x73]; }
  }

  lemma NotAWord(t: Text)
    requires t != [] && t[0] != 0x6E && t[0] != 0x74 && t[0] != 0x66
    ensures |t| >= 4 ==> t[..4] != [0x6E, 0x75, 0x6C, 0x6C] && t[..4] != [0x74, 0x72, 0x75, 0x65]
    ensures |t| >= 5 ==> t[..5] != [0x66, 0x61, 0x6C, 0x73, 0x65]
  {
    if |t| >= 4 { assert t[..4][0] == t[0]; }
    if |t| >= 5 { assert t[..5][0] == t[0]; }
  }

  /** A printed value reads back as one that is equal up to key order, with its keys in ascending order, whatever follows. */
  lemma {:induction false} PrintRead(v: Json, r: Text) returns (w: Json)
    requires WellFormed(v) && Stops(r)
    ensures ReadValue(Print(v) + r) == Some((w, r)) && Equivalent(v, w) && Canonical(w)
    decreases v, 1
  {
    var t := Print(v) + r;
    FirstUnit(v);
    w := v;
    match v
    case Null => WordsRead(v, r);
    case Boolean(_) => WordsRead(v, r);
    case Number(a) =>
      NotAWord(t);
      NumeralRead(a, r);
      assert t[..|a|] == a && t[|a|..] == r;
    case String(s) =>
      NotAWord(t);
      StringRead(s, r);
    case Array(_) => w := ArrayRead(v, r);
    case Object(_) => w := ObjectRead(v, r);
  }

  lemma {:induction false} ArrayRead(v: Json, r: Text) returns (w: Json)
    requires v.Array? && WellFormed(v)
    ensures ReadValue(Print(v) + r) == Some((w, r)) && Equivalent(v, w) && Canonical(w)
    decreases v, 0, |v.items| + 1
  {
    hide ReadUnits, NumeralLength, Quoted;
    var t, rest := Print(v) + r, PrintItems(v, v.items) + [0x5D] + r;
    assert t == [0x5B] + rest && t[1..] == rest;
    NotAWord(t);
    if v.items == [] {
      w := v;
      assert rest == [0x5D] + r && t[2..] == r;
    } else {
      var items := ItemsRead(v, v.items, r);
      w := Array(items);
      ItemsSplit(v, v.items, r);
      FirstUnit(v.items[0]);
      assert rest[0] == Print(v.items[0])[0];
    }
  }

  lemma {:induction false} ItemsRead(v: Json, vs: seq<Json>, r: Text) returns (ws: seq<Json>)
    requires v.Array? && (forall x :: x in vs ==> x in v.items && WellFormed(x)) && vs != []
    ensures ReadItems(PrintItems(v, vs) + [0x5D] + r) == Some((ws, r)) && |ws| == |vs|
    ensures forall i :: 0 <= i < |vs| ==> Equivalent(vs[i], ws[i]) && Canonical(ws[i])
    decreases v, 0, |vs|
  {
    ItemsSplit(v, vs, r);
    var x := Following(PrintItems(v, vs[1..]), |vs| > 1, CLOSE_BRACKET, r);
    assert vs[0] in v.items;
    var w := PrintRead(vs[0], x);
    if |vs| > 1 {
      var more := PrintItems(v, vs[1..]) + [0x5D] + r;
      assert x == [0x2C] + more && x[1..] == more;
      ws := ItemsRead(v, vs[1..], r);
      ws := [w] + ws;
    } else {
      assert x[1..] == r;
      ws := [w];
    }
  }

  lemma {:induction false} ObjectRead(v: Json, r: Text) returns (w: Json)
    requires v.Object? && WellFormed(v)
    ensures ReadValue(Print(v) + r) == Some((w, r)) && Equivalent(v, w) && Canonical(w)
    decreases v, 0, |v.members| + 1
  {
    hide Equivalent, Canonical, WellFormed, Sort, Matching, Quoted;
    SortMembers(v.members);
    SortedWellFormed(v);
    var vs := Sort(v.members);
    var t, rest := Print(v) + r, PrintMembers(v, vs) + [0x7D] + r;
    assert t == [0x7B] + rest && t[1..] == rest;
    NotAWord(t);
    if vs == [] {
      w := v;
      NoMembers(v);
      assert rest == [0x7D] + r && t[2..] == r;
    } else {
      var ws := MembersRead(v, vs, r);
      w := Object(ws);
      MembersSplit(v, vs, r);
      QuoteFirst(vs[0].key, rest);
      ReadSorted(v, ws);
    }
  }

  lemma {:induction false} MembersRead(v: Json, vs: seq<Member>, r: Text) returns (ws: seq<Member>)
    requires v.Object? && (forall m :: m in vs ==> m in v.members && WellFormed(m.value)) && vs != []
    ensures ReadMembers(PrintMembers(v, vs) + [0x7D] + r) == Some((ws, r)) && Matching(vs, ws)
    ensures forall i :: 0 <= i < |ws| ==> Canonical(ws[i].value)
    decreases v, 0, |vs|
  {
    MembersSplit(v, vs, r);
    var x := Following(PrintMembers(v, vs[1..]), |vs| > 1, CLOSE_BRACE, r);
    assert vs[0] in v.members;
    var w := PrintRead(vs[0].value, x);
    var after := [COLON] + (Print(vs[0].value) + x);
    StringRead(vs[0].key, after);
    assert after[1..] == Print(vs[0].value) + x;
    var m := Member(vs[0].key, w);
    assert ReadMember(PrintMembers(v, vs) + [0x7D] + r) == Some((m, x));
    if |vs| > 1 {
      var more := PrintMembers(v, vs[1..]) + [0x7D] + r;
      assert x == [0x2C] + more && x[1..] == more;
      ws := MembersRead(v, vs[1..], r);
      ws := [m] + ws;
    } else {
      assert x[1..] == r;
      ws := [m];
    }
  }

  lemma NoMembers(v: Json)
    requires v == Object([])
    ensures Equivalent(v, v) && Canonical(v)
  {
  }

  lemma ReadSorted(v: Json, ws: seq<Member>)
    requires v.Object? && WellFormed(v) && Matching(Sort(v.members), ws)
    requires forall i :: 0 <= i < |ws| ==> Canonical(ws[i].value)
    ensures Equivalent(v, Object(ws)) && Canonical(Object(ws))
  {
    hide Canonical, Sort;
    SortAscends(v.members);
    SortedLess(Sort(v.members), ws);
    SortedEquivalent(v, ws);
    CanonicalObject(ws);
  }

  lemma CanonicalObject(ws: seq<Member>)
    requires forall i, j :: 0 <= i < j < |ws| ==> Less(ws[i].key, ws[j].key)
    requires forall i :: 0 <= i < |ws| ==> Canonical(ws[i].value)
    ensures Canonical(Object(ws))
  {
    hide Less;
  }

  lemma SortedLess(vs: seq<Member>, ws: seq<Member>)
    requires Ascending(vs) && Matching(vs, ws)
    ensures forall i, j :: 0 <= i < j < |ws| ==> Less(ws[i].key, ws[j].key)
  {
    hide Less, Before, Equivalent;
    forall i, j | 0 <= i < j < |ws| ensures Less(ws[i].key, ws[j].key) {
      BeforeIsLess(vs[i].key, vs[j].key);
    }
  }

  lemma SortedEquivalent(v: Json, ws: seq<Member>)
    requires v.Object? && Matching(Sort(v.members), ws)
    ensures Equivalent(v, Object(ws))
  {
    var vs, w := Sort(v.members), Object(ws);
    SortMembers(v.members);
    forall i | 0 <= i < |v.members|
      ensures exists j :: 0 <= j < |w.members| && v.members[i].key == w.members[j].key
                          && Equivalent(v.members[i].value, w.members[j].value)
    {
      assert v.members[i] in vs;
      var j :| 0 <= j < |vs| && vs[j] == v.members[i];
      assert v.members[i].key == w.members[j].key;
    }
  }

  /** A text that begins with a printed string begins with a quote. */
  lemma QuoteFirst(key: Text, t: Text)
    requires |Quoted(key)| <= |t| && t[..|Quoted(key)|] == Quoted(key)
    ensures t[0] == 0x22
  {
    assert t[0] == Quoted(key)[0];
  }

  /** The canonical text of a value is JSON: it is read to its end, as a value that equals the one printed up to key order and
      whose keys ascend. */
  lemma CanonicalTextIsJson(v: Json)
    requires WellFormed(v)
    ensures ReadValue(Print(v)).Some? && ReadValue(Print(v)).value.1 == []
    ensures Equivalent(v, ReadValue(Print(v)).value.0) && Canonical(ReadValue(Print(v)).value.0)
  {
    var w := PrintRead(v, []);
    assert Print(v) + [] == Print(v);
  }
}
