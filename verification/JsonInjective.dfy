/** Two well-formed JSON values print the same canonical text exactly when they are equal up to key order. */
module JsonInjective {
  import opened Utf16
  import opened CanonicalJson

  /** The text after an empty part. */
  lemma NothingBefore(u: CodeUnit, r: Text)
    ensures [] + [u] + r == [u] + r
  {
    assert [] + [u] == [u];
  }

  // ----- strings -----

  lemma HexValue(n: int)
    requires 0 <= n < 0x1_0000
    ensures n == n / 4096 * 4096 + n / 256 % 16 * 256 + n / 16 % 16 * 16 + n % 16
  {
    var a, b := n / 16, n / 256;
    assert a / 16 == b && b / 16 == n / 4096;
    assert n == a * 16 + n % 16 && a == b * 16 + a % 16 && b == b / 16 * 16 + b % 16;
  }

  lemma HexInjective(i: int, j: int)
    requires 0 <= i < 16 && 0 <= j < 16 && HexDigit(i) == HexDigit(j)
    ensures i == j
  {
  }

  lemma UnicodeEscapeInjective(u: CodeUnit, w: CodeUnit)
    requires UnicodeEscape(u) == UnicodeEscape(w)
    ensures u == w
  {
    var n, m := u as int, w as int;
    var e, f := UnicodeEscape(u), UnicodeEscape(w);
    assert e[2] == f[2] && e[3] == f[3] && e[4] == f[4] && e[5] == f[5];
    HexInjective(n / 4096, m / 4096);
    HexInjective(n / 256 % 16, m / 256 % 16);
    HexInjective(n / 16 % 16, m / 16 % 16);
    HexInjective(n % 16, m % 16);
    HexValue(n);
    HexValue(m);
  }

  /** No escape is a prefix of another. */
  lemma EscapeUnitInjective(u: CodeUnit, w: CodeUnit, x: Text, y: Text)
    requires EscapeUnit(u) + x == EscapeUnit(w) + y
    ensures u == w && x == y
  {
    var a, b := EscapeUnit(u), EscapeUnit(w);
    assert (a + x)[0] == (b + y)[0];
    if |a| > 1 && |b| > 1 {
      assert (a + x)[1] == (b + y)[1];
    }
    SamePrefix(a, x, b, y);
    if |a| == 6 { UnicodeEscapeInjective(u, w); }
  }

  /** How many units of t the next step of Escaped encodes, and their encoding. */
  function HeadLength(t: Text): nat
    requires t != []
  { if PairAt(t, 0) then 2 else 1 }

  function Head(t: Text): Text
    requires t != []
  { if PairAt(t, 0) then t[..2] else EscapeUnit(t[0]) }

  lemma HeadStart(t: Text)
    requires t != []
    ensures HeadLength(t) <= |t|
    ensures Head(t) != [] && Head(t)[0] != QUOTE && Escaped(t) == Head(t) + Escaped(t[HeadLength(t)..])
    ensures IsHighSurrogate(Head(t)[0]) <==> PairAt(t, 0)
  {
  }

  lemma HeadInjective(s: Text, t: Text, x: Text, y: Text)
    requires s != [] && t != [] && Head(s) + x == Head(t) + y
    ensures HeadLength(s) == HeadLength(t) && s[..HeadLength(s)] == t[..HeadLength(t)] && x == y
  {
    HeadStart(s);
    HeadStart(t);
    assert (Head(s) + x)[0] == (Head(t) + y)[0];
    if PairAt(s, 0) {
      SamePrefix(Head(s), x, Head(t), y);
    } else {
      EscapeUnitInjective(s[0], t[0], x, y);
    }
  }

  lemma BodyStart(t: Text, r: Text)
    ensures (Escaped(t) + [QUOTE] + r)[0] == QUOTE <==> t == []
  {
    if t != [] {
      HeadStart(t);
    }
  }

  /** A quoted body followed by its closing quote determines the string and what follows. */
  lemma {:induction false} EscapedInjective(s: Text, t: Text, r: Text, q: Text)
    requires Escaped(s) + [QUOTE] + r == Escaped(t) + [QUOTE] + q
    ensures s == t && r == q
    decreases |s| + |t|
  {
    BodyStart(s, r);
    BodyStart(t, q);
    assert s == [] <==> t == [];
    if s == [] {
      NothingBefore(QUOTE, r);
      NothingBefore(QUOTE, q);
      SameFirst(QUOTE, r, QUOTE, q);
    } else {
      EscapedStep(s, t, r, q);
      EscapedInjective(s[HeadLength(s)..], t[HeadLength(t)..], r, q);
      assert s == s[..HeadLength(s)] + s[HeadLength(s)..];
      assert t == t[..HeadLength(t)] + t[HeadLength(t)..];
    }
  }

  lemma EscapedStep(s: Text, t: Text, r: Text, q: Text)
    requires s != [] && t != [] && Escaped(s) + [QUOTE] + r == Escaped(t) + [QUOTE] + q
    ensures HeadLength(s) == HeadLength(t) && s[..HeadLength(s)] == t[..HeadLength(t)]
    ensures Escaped(s[HeadLength(s)..]) + [QUOTE] + r == Escaped(t[HeadLength(t)..]) + [QUOTE] + q
  {
    hide Escaped, Head, HeadLength;
    HeadStart(s);
    HeadStart(t);
    var x, y := Escaped(s[HeadLength(s)..]) + [QUOTE] + r, Escaped(t[HeadLength(t)..]) + [QUOTE] + q;
    assert Head(s) + x == Escaped(s) + [QUOTE] + r;
    assert Head(t) + y == Escaped(t) + [QUOTE] + q;
    HeadInjective(s, t, x, y);
  }

  lemma QuotedInjective(s: Text, t: Text, r: Text, q: Text)
    requires Quoted(s) + r == Quoted(t) + q
    ensures s == t && r == q
  {
    assert Quoted(s) + r == [QUOTE] + (Escaped(s) + [QUOTE] + r);
    assert Quoted(t) + q == [QUOTE] + (Escaped(t) + [QUOTE] + q);
    SamePrefix([QUOTE], Escaped(s) + [QUOTE] + r, [QUOTE], Escaped(t) + [QUOTE] + q);
    EscapedInjective(s, t, r, q);
  }

  // ----- values -----

  /** A number that is followed by this text has ended. */
  predicate Stops(r: Text) {
    r == [] || !IsNumeralUnit(r[0])
  }

  lemma NumeralInjective(a: Text, b: Text, r: Text, q: Text)
    requires IsNumeral(a) && IsNumeral(b) && Stops(r) && Stops(q) && a + r == b + q
    ensures a == b && r == q
  {
    var whole := a + r;
    assert whole == b + q;
    assert forall i :: 0 <= i < |a| ==> whole[i] == a[i];
    assert forall i :: 0 <= i < |b| ==> whole[i] == b[i];
    assert r != [] ==> whole[|a|] == r[0];
    assert q != [] ==> whole[|b|] == q[0];
    assert |a| == |b|;
    SamePrefix(a, r, b, q);
  }

  /** The first unit tells the kind of value. */
  function Kind(v: Json): nat {
    match v
    case Null => 0
    case Boolean(b) => if b then 1 else 2
    case Number(_) => 3
    case String(_) => 4
    case Array(_) => 5
    case Object(_) => 6
  }

  function KindOf(u: CodeUnit): nat {
    if u == 0x6E then 0 else if u == 0x74 then 1 else if u == 0x66 then 2
    else if IsDigit(u) || u == 0x2D then 3 else if u == QUOTE then 4
    else if u == OPEN_BRACKET then 5 else if u == OPEN_BRACE then 6 else 7
  }

  lemma FirstUnit(v: Json)
    requires WellFormed(v)
    ensures Print(v) != [] && KindOf(Print(v)[0]) == Kind(v) && Kind(v) < 7
  {
  }

  /** What follows the first of several items or members joined by commas and closed. */
  function Following(rest: Text, more: bool, close: CodeUnit, r: Text): Text {
    if more then [COMMA] + (rest + [close] + r) else [close] + r
  }

  lemma {:induction false} PrintInjective(v: Json, w: Json, r: Text, q: Text)
    requires WellFormed(v) && WellFormed(w) && Stops(r) && Stops(q)
    requires Print(v) + r == Print(w) + q
    ensures Equivalent(v, w) && r == q
    decreases v, 1
  {
    FirstUnit(v);
    FirstUnit(w);
    assert (Print(v) + r)[0] == Print(v)[0] && (Print(w) + q)[0] == Print(w)[0];
    assert Kind(v) == Kind(w);
    match v
    case Number(a) => NumeralInjective(a, w.numeral, r, q);
    case String(t) => QuotedInjective(t, w.text, r, q);
    case Array(items) => ArrayInjective(v, w, r, q);
    case Object(members) => ObjectInjective(v, w, r, q);
    case _ => SamePrefix(Print(v), r, Print(w), q);
  }

  lemma {:induction false} ArrayInjective(v: Json, w: Json, r: Text, q: Text)
    requires v.Array? && w.Array? && WellFormed(v) && WellFormed(w)
    requires Print(v) + r == Print(w) + q
    ensures Equivalent(v, w) && r == q
    decreases v, 0, |v.items| + 1
  {
    var a, b := PrintItems(v, v.items) + [CLOSE_BRACKET] + r, PrintItems(w, w.items) + [CLOSE_BRACKET] + q;
    assert Print(v) + r == [OPEN_BRACKET] + a && Print(w) + q == [OPEN_BRACKET] + b;
    SamePrefix([OPEN_BRACKET], a, [OPEN_BRACKET], b);
    ItemsInjective(v, w, v.items, w.items, r, q);
  }

  lemma ItemsSplit(v: Json, items: seq<Json>, r: Text)
    requires v.Array? && (forall x :: x in items ==> x in v.items) && items != []
    ensures PrintItems(v, items) + [CLOSE_BRACKET] + r
            == Print(items[0]) + Following(PrintItems(v, items[1..]), |items| > 1, CLOSE_BRACKET, r)
  {
  }

  lemma {:induction false} ItemsInjective(v: Json, w: Json, vs: seq<Json>, ws: seq<Json>, r: Text, q: Text)
    requires v.Array? && (forall x :: x in vs ==> x in v.items && WellFormed(x))
    requires w.Array? && (forall x :: x in ws ==> x in w.items && WellFormed(x))
    requires PrintItems(v, vs) + [CLOSE_BRACKET] + r == PrintItems(w, ws) + [CLOSE_BRACKET] + q
    ensures |vs| == |ws| && r == q && forall i :: 0 <= i < |vs| ==> Equivalent(vs[i], ws[i])
    decreases v, 0, |vs|
  {
    if vs != [] { ItemsSplit(v, vs, r); FirstUnit(vs[0]); }
    if ws != [] { ItemsSplit(w, ws, q); FirstUnit(ws[0]); }
    if vs == [] || ws == [] {
      assert (PrintItems(v, vs) + [CLOSE_BRACKET] + r)[0] == (PrintItems(w, ws) + [CLOSE_BRACKET] + q)[0];
      NothingBefore(CLOSE_BRACKET, r);
      NothingBefore(CLOSE_BRACKET, q);
      SameFirst(CLOSE_BRACKET, r, CLOSE_BRACKET, q);
    } else {
      var x := Following(PrintItems(v, vs[1..]), |vs| > 1, CLOSE_BRACKET, r);
      var y := Following(PrintItems(w, ws[1..]), |ws| > 1, CLOSE_BRACKET, q);
      assert vs[0] in v.items;
      PrintInjective(vs[0], ws[0], x, y);
      assert x[0] == y[0];
      if |vs| > 1 {
        SameFirst(COMMA, PrintItems(v, vs[1..]) + [CLOSE_BRACKET] + r, COMMA, PrintItems(w, ws[1..]) + [CLOSE_BRACKET] + q);
        ItemsInjective(v, w, vs[1..], ws[1..], r, q);
      } else {
        SameFirst(CLOSE_BRACKET, r, CLOSE_BRACKET, q);
      }
    }
  }

  lemma Regroup(key: Text, value: Text, tail: Text)
    ensures key + [COLON] + value + tail == key + ([COLON] + (value + tail))
  {
  }

  lemma TailOf(first: Text, rest: Text, more: bool, close: CodeUnit, r: Text)
    ensures (if more then first + [COMMA] + rest else first) + [close] + r == first + Following(rest, more, close, r)
  {
  }

  lemma MembersSplit(v: Json, ms: seq<Member>, r: Text)
    requires v.Object? && (forall m :: m in ms ==> m in v.members) && ms != []
    ensures PrintMembers(v, ms) + [CLOSE_BRACE] + r
            == Quoted(ms[0].key) + ([COLON] + (Print(ms[0].value)
               + Following(PrintMembers(v, ms[1..]), |ms| > 1, CLOSE_BRACE, r)))
  {
    hide Quoted, Print, Following;
    var rest := PrintMembers(v, ms[1..]);
    TailOf(PrintMember(v, ms[0]), rest, |ms| > 1, CLOSE_BRACE, r);
    Regroup(Quoted(ms[0].key), Print(ms[0].value), Following(rest, |ms| > 1, CLOSE_BRACE, r));
  }

  /** Printed pairwise alike: same keys, equivalent values. */
  predicate Matching(vs: seq<Member>, ws: seq<Member>) {
    |vs| == |ws| && forall i :: 0 <= i < |vs| ==> vs[i].key == ws[i].key && Equivalent(vs[i].value, ws[i].value)
  }

  lemma {:induction false} MembersInjective(v: Json, w: Json, vs: seq<Member>, ws: seq<Member>, r: Text, q: Text)
    requires v.Object? && (forall m :: m in vs ==> m in v.members && WellFormed(m.value))
    requires w.Object? && (forall m :: m in ws ==> m in w.members && WellFormed(m.value))
    requires PrintMembers(v, vs) + [CLOSE_BRACE] + r == PrintMembers(w, ws) + [CLOSE_BRACE] + q
    ensures Matching(vs, ws) && r == q
    decreases v, 0, |vs|
  {
    if vs != [] { MembersSplit(v, vs, r); }
    if ws != [] { MembersSplit(w, ws, q); }
    if vs == [] || ws == [] {
      assert (PrintMembers(v, vs) + [CLOSE_BRACE] + r)[0] == (PrintMembers(w, ws) + [CLOSE_BRACE] + q)[0];
      NothingBefore(CLOSE_BRACE, r);
      NothingBefore(CLOSE_BRACE, q);
      SameFirst(CLOSE_BRACE, r, CLOSE_BRACE, q);
    } else {
      var x := Following(PrintMembers(v, vs[1..]), |vs| > 1, CLOSE_BRACE, r);
      var y := Following(PrintMembers(w, ws[1..]), |ws| > 1, CLOSE_BRACE, q);
      QuotedInjective(vs[0].key, ws[0].key, [COLON] + (Print(vs[0].value) + x), [COLON] + (Print(ws[0].value) + y));
      SamePrefix([COLON], Print(vs[0].value) + x, [COLON], Print(ws[0].value) + y);
      assert vs[0] in v.members;
      PrintInjective(vs[0].value, ws[0].value, x, y);
      assert x[0] == y[0];
      if |vs| > 1 {
        SameFirst(COMMA, PrintMembers(v, vs[1..]) + [CLOSE_BRACE] + r, COMMA, PrintMembers(w, ws[1..]) + [CLOSE_BRACE] + q);
        MembersInjective(v, w, vs[1..], ws[1..], r, q);
      } else {
        SameFirst(CLOSE_BRACE, r, CLOSE_BRACE, q);
      }
    }
  }

  lemma SortedWellFormed(v: Json)
    requires v.Object? && WellFormed(v)
    ensures forall m :: m in Sort(v.members) ==> m in v.members && WellFormed(m.value)
  {
    SortMembers(v.members);
  }

  lemma {:induction false} ObjectInjective(v: Json, w: Json, r: Text, q: Text)
    requires v.Object? && w.Object? && WellFormed(v) && WellFormed(w)
    requires Print(v) + r == Print(w) + q
    ensures Equivalent(v, w) && r == q
    decreases v, 0, |v.members| + 1
  {
    hide Equivalent, WellFormed, PrintMembers, Sort, Matching;
    SortedWellFormed(v);
    SortedWellFormed(w);
    SortMembers(v.members);
    SortMembers(w.members);
    var vs, ws := Sort(v.members), Sort(w.members);
    var a, b := PrintMembers(v, vs) + [CLOSE_BRACE] + r, PrintMembers(w, ws) + [CLOSE_BRACE] + q;
    assert Print(v) + r == [OPEN_BRACE] + a && Print(w) + q == [OPEN_BRACE] + b;
    SamePrefix([OPEN_BRACE], a, [OPEN_BRACE], b);
    MembersInjective(v, w, vs, ws, r, q);
    MatchingSorted(v, w);
  }

  lemma MatchingSorted(v: Json, w: Json)
    requires v.Object? && w.Object? && Matching(Sort(v.members), Sort(w.members))
    ensures Equivalent(v, w)
  {
    SortMembers(v.members);
    SortMembers(w.members);
    var vs, ws := Sort(v.members), Sort(w.members);
    forall i | 0 <= i < |v.members|
      ensures exists j :: 0 <= j < |w.members| && v.members[i].key == w.members[j].key
                          && Equivalent(v.members[i].value, w.members[j].value)
    {
      assert v.members[i] in vs;
      var k :| 0 <= k < |vs| && vs[k] == v.members[i];
      assert ws[k] in w.members;
      var j :| 0 <= j < |w.members| && w.members[j] == ws[k];
    }
  }

  // ----- the other direction: equivalent values print alike -----

  lemma {:induction false} BeforeTotal(a: Text, b: Text)
    ensures !Before(a, a)
    ensures a == b || Before(a, b) || Before(b, a)
    ensures !(Before(a, b) && Before(b, a))
  {
    if a != [] { BeforeTotal(a[1..], a[1..]); }
    if a != [] && b != [] && a[0] == b[0] {
      BeforeTotal(a[1..], b[1..]);
      assert a == [a[0]] + a[1..] && b == [b[0]] + b[1..];
    }
  }

  lemma {:induction false} BeforeTransitive(a: Text, b: Text, c: Text)
    requires Before(a, b) && Before(b, c)
    ensures Before(a, c)
  {
    if a != [] && a[0] == b[0] == c[0] {
      BeforeTransitive(a[1..], b[1..], c[1..]);
    }
  }

  predicate Ascending(ms: seq<Member>) {
    forall i, j :: 0 <= i < j < |ms| ==> Before(ms[i].key, ms[j].key)
  }

  lemma {:induction false} InsertAscends(sorted: seq<Member>, m: Member)
    requires Ascending(sorted) && forall x :: x in sorted ==> x.key != m.key
    ensures Ascending(Insert(sorted, m))
  {
    if sorted != [] {
      BeforeTotal(sorted[0].key, m.key);
      assert sorted[0] in sorted;
      if Before(m.key, sorted[0].key) {
        forall j | 0 < j < |sorted| ensures Before(m.key, sorted[j].key) {
          BeforeTransitive(m.key, sorted[0].key, sorted[j].key);
        }
      } else {
        InsertAscends(sorted[1..], m);
        InsertMembers(sorted[1..], m);
        var rest := Insert(sorted[1..], m);
        forall j | 0 <= j < |rest| ensures Before(sorted[0].key, rest[j].key) {
          assert rest[j] in rest;
        }
      }
    }
  }

  lemma {:induction false} SortAscends(members: seq<Member>)
    requires DistinctKeys(members)
    ensures Ascending(Sort(members))
  {
    if members != [] {
      var front := members[..|members| - 1];
      SortAscends(front);
      SortMembers(front);
      InsertAscends(Sort(front), members[|members| - 1]);
    }
  }

  predicate AscendingKeys(keys: seq<Text>) {
    forall i, j :: 0 <= i < j < |keys| ==> Before(keys[i], keys[j])
  }

  lemma SameFirstKey(a: seq<Text>, b: seq<Text>)
    requires AscendingKeys(a) && AscendingKeys(b) && a != [] && b != []
    requires a[0] in b && b[0] in a
    ensures a[0] == b[0]
  {
    var i :| 0 <= i < |b| && b[i] == a[0];
    var j :| 0 <= j < |a| && a[j] == b[0];
    BeforeTotal(a[0], b[0]);
  }

  lemma FirstKeyOnce(a: seq<Text>)
    requires AscendingKeys(a) && a != []
    ensures a[0] !in a[1..] && forall k :: k in a <==> k == a[0] || k in a[1..]
  {
    BeforeTotal(a[0], a[0]);
    assert a == [a[0]] + a[1..];
  }

  /** An ascending list of keys is determined by which keys it holds. */
  lemma {:induction false} AscendingUnique(a: seq<Text>, b: seq<Text>)
    requires AscendingKeys(a) && AscendingKeys(b) && forall k :: k in a <==> k in b
    ensures a == b
  {
    assert a != [] ==> a[0] in a;
    assert b != [] ==> b[0] in b;
    if a != [] && b != [] {
      SameFirstKey(a, b);
      FirstKeyOnce(a);
      FirstKeyOnce(b);
      AscendingUnique(a[1..], b[1..]);
      assert a == [a[0]] + a[1..] && b == [b[0]] + b[1..];
    }
  }

  function Keys(ms: seq<Member>): (keys: seq<Text>)
    ensures |keys| == |ms| && forall i :: 0 <= i < |ms| ==> keys[i] == ms[i].key
  {
    seq(|ms|, i requires 0 <= i < |ms| => ms[i].key)
  }

  lemma SortedKeys(members: seq<Member>)
    requires DistinctKeys(members)
    ensures AscendingKeys(Keys(Sort(members)))
    ensures forall k :: k in Keys(Sort(members)) <==> k in Keys(members)
  {
    SortAscends(members);
    SortMembers(members);
    var sorted := Sort(members);
    forall k | k in Keys(sorted) ensures k in Keys(members) {
      var i :| 0 <= i < |sorted| && sorted[i].key == k;
      assert sorted[i] in members;
      var j :| 0 <= j < |members| && members[j] == sorted[i];
      assert Keys(members)[j] == k;
    }
    forall k | k in Keys(members) ensures k in Keys(sorted) {
      var i :| 0 <= i < |members| && members[i].key == k;
      assert members[i] in sorted;
      var j :| 0 <= j < |sorted| && sorted[j] == members[i];
      assert Keys(sorted)[j] == k;
    }
  }

  /** v's keys all occur in w, and there are as many: the same keys. */
  lemma EquivalentKeys(v: Json, w: Json)
    requires v.Object? && w.Object? && WellFormed(v) && WellFormed(w) && Equivalent(v, w)
    ensures forall k :: k in Keys(v.members) <==> k in Keys(w.members)
  {
    var a, b := Keys(v.members), Keys(w.members);
    forall k | k in a ensures k in b {
      var i :| 0 <= i < |a| && a[i] == k;
      var j :| 0 <= j < |b| && v.members[i].key == w.members[j].key && Equivalent(v.members[i].value, w.members[j].value);
      assert b[j] == k;
    }
    SameKeySet(a, b);
  }

  ghost function KeySet(keys: seq<Text>): (s: set<Text>)
    ensures forall k :: k in s <==> k in keys
  {
    set k | k in keys
  }

  lemma {:induction false} DistinctSet(keys: seq<Text>)
    requires forall i, j :: 0 <= i < j < |keys| ==> keys[i] != keys[j]
    ensures |KeySet(keys)| == |keys|
  {
    if keys != [] {
      DistinctSet(keys[1..]);
      assert keys == [keys[0]] + keys[1..];
      assert KeySet(keys) == {keys[0]} + KeySet(keys[1..]);
    }
  }

  lemma SameKeySet(a: seq<Text>, b: seq<Text>)
    requires |a| == |b| && forall k :: k in a ==> k in b
    requires forall i, j :: 0 <= i < j < |a| ==> a[i] != a[j]
    requires forall i, j :: 0 <= i < j < |b| ==> b[i] != b[j]
    ensures forall k :: k in b ==> k in a
  {
    DistinctSet(a);
    DistinctSet(b);
    assert KeySet(a) <= KeySet(b);
    assert |KeySet(b) - KeySet(a)| == |KeySet(b)| - |KeySet(a)|;
    assert KeySet(b) == KeySet(a) + (KeySet(b) - KeySet(a));
    forall k | k in b ensures k in a { assert k in KeySet(b); }
  }

  lemma {:induction false} EquivalentMatching(v: Json, w: Json)
    requires v.Object? && w.Object? && WellFormed(v) && WellFormed(w) && Equivalent(v, w)
    ensures Matching(Sort(v.members), Sort(w.members))
  {
    EquivalentKeys(v, w);
    SortedKeys(v.members);
    SortedKeys(w.members);
    var vs, ws := Sort(v.members), Sort(w.members);
    AscendingUnique(Keys(vs), Keys(ws));
    forall i | 0 <= i < |vs| ensures vs[i].key == ws[i].key && Equivalent(vs[i].value, ws[i].value) {
      assert Keys(vs)[i] == Keys(ws)[i];
      SortedPairEquivalent(v, w, i);
    }
  }

  lemma SortedPairEquivalent(v: Json, w: Json, i: nat)
    requires v.Object? && w.Object? && WellFormed(w) && Equivalent(v, w)
    requires i < |Sort(v.members)| && i < |Sort(w.members)| && Sort(v.members)[i].key == Sort(w.members)[i].key
    ensures Equivalent(Sort(v.members)[i].value, Sort(w.members)[i].value)
  {
    var m, n := Sort(v.members)[i], Sort(w.members)[i];
    SortMembers(v.members);
    SortMembers(w.members);
    assert m in Sort(v.members) && n in Sort(w.members);
    var a :| 0 <= a < |v.members| && v.members[a] == m;
    var b :| 0 <= b < |w.members| && w.members[b] == n;
    var c :| 0 <= c < |w.members| && v.members[a].key == w.members[c].key
             && Equivalent(v.members[a].value, w.members[c].value);
    assert b == c;
  }

  lemma {:induction false} EquivalentPrintsSame(v: Json, w: Json)
    requires WellFormed(v) && WellFormed(w) && Equivalent(v, w)
    ensures Print(v) == Print(w)
    decreases v, 1
  {
    match v
    case Array(items) => EquivalentItems(v, w, v.items, w.items);
    case Object(members) =>
      SortedWellFormed(v);
      SortedWellFormed(w);
      EquivalentMatching(v, w);
      EquivalentMembers(v, w, Sort(v.members), Sort(w.members));
    case _ =>
  }

  lemma {:induction false} EquivalentItems(v: Json, w: Json, vs: seq<Json>, ws: seq<Json>)
    requires v.Array? && (forall x :: x in vs ==> x in v.items && WellFormed(x))
    requires w.Array? && (forall x :: x in ws ==> x in w.items && WellFormed(x))
    requires |vs| == |ws| && forall i :: 0 <= i < |vs| ==> Equivalent(vs[i], ws[i])
    ensures PrintItems(v, vs) == PrintItems(w, ws)
    decreases v, 0, |vs|
  {
    if vs != [] {
      assert vs[0] in v.items;
      EquivalentPrintsSame(vs[0], ws[0]);
      EquivalentItems(v, w, vs[1..], ws[1..]);
    }
  }

  lemma {:induction false} EquivalentMembers(v: Json, w: Json, vs: seq<Member>, ws: seq<Member>)
    requires v.Object? && (forall m :: m in vs ==> m in v.members && WellFormed(m.value))
    requires w.Object? && (forall m :: m in ws ==> m in w.members && WellFormed(m.value))
    requires Matching(vs, ws)
    ensures PrintMembers(v, vs) == PrintMembers(w, ws)
    decreases v, 0, |vs|
  {
    if vs != [] {
      assert vs[0] in v.members;
      EquivalentPrintsSame(vs[0].value, ws[0].value);
      EquivalentMembers(v, w, vs[1..], ws[1..]);
    }
  }

  /** Comparing canonical texts decides equality up to key order. */
  lemma SameTextIffEquivalent(v: Json, w: Json)
    requires WellFormed(v) && WellFormed(w)
    ensures Print(v) == Print(w) <==> Equivalent(v, w)
  {
    if Equivalent(v, w) {
      EquivalentPrintsSame(v, w);
    }
    if Print(v) == Print(w) {
      assert Print(v) + [] == Print(w) + [];
      PrintInjective(v, w, [], []);
    }
  }

  /** repositoryCheckDockerCompatibilityMatches. */
  function CompatibilityMatches(approved: Json, observed: Json): (matches: bool)
    requires WellFormed(approved) && WellFormed(observed)
    ensures matches <==> Equivalent(approved, observed)
  {
    SameTextIffEquivalent(approved, observed);
    Print(approved) == Print(observed)
  }
}
