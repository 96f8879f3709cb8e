/** The printed patch decides what it does: hunks that print the same text apply alike (git-review.ts). */
module PatchText {
  import opened Utf16
  import opened Results
  import opened Lines
  import opened PatchWindows
  import opened PatchHunks
  import opened PatchExactness
  import opened PatchPrinting

  const AT: CodeUnit := 0x40
  const BACKSLASH: CodeUnit := 0x5C

  // ----- decimal numbers -----

  predicate IsDigit(u: CodeUnit) {
    0x30 <= u <= 0x39
  }

  lemma {:induction false} DecimalDigits(n: nat)
    ensures forall i :: 0 <= i < |Decimal(n)| ==> IsDigit(Decimal(n)[i])
  {
    if n >= 10 { DecimalDigits(n / 10); }
  }

  lemma {:induction false} DecimalDecides(n: nat, m: nat)
    requires Decimal(n) == Decimal(m)
    ensures n == m
  {
    var a, b := Decimal(n), Decimal(m);
    assert a[|a| - 1] == b[|b| - 1];
    assert n % 10 == m % 10;
    if n >= 10 && m >= 10 {
      assert a[..|a| - 1] == Decimal(n / 10) && b[..|b| - 1] == Decimal(m / 10);
      DecimalDecides(n / 10, m / 10);
    }
  }

  lemma NumberEnds(n: nat, m: nat, x: Text, y: Text)
    requires x != [] && y != [] && !IsDigit(x[0]) && !IsDigit(y[0]) && Decimal(n) + x == Decimal(m) + y
    ensures n == m && x == y
  {
    DecimalDigits(n);
    DecimalDigits(m);
    var a, b, whole := Decimal(n), Decimal(m), Decimal(n) + x;
    assert forall i :: 0 <= i < |a| ==> whole[i] == a[i];
    assert forall i :: 0 <= i < |b| ==> whole[i] == b[i];
    assert whole[|a|] == x[0] && whole[|b|] == y[0];
    assert |a| == |b|;
    SamePrefix(a, x, b, y);
    DecimalDecides(n, m);
  }

  // ----- lines -----

  /** A line of a text: not empty, and a newline only at its end. */
  predicate IsLine(line: Text) {
    line != [] && forall i :: 0 <= i < |line| - 1 ==> line[i] != NEWLINE
  }

  predicate IsPrefix(u: CodeUnit) {
    u == KEPT || u == REMOVED || u == ADDED
  }

  /** What may follow a printed line: another line, another hunk, or nothing. */
  predicate Follows(x: Text) {
    x == [] || IsPrefix(x[0]) || x[0] == AT
  }

  const MARKER: Text := [NEWLINE] + Ascii("\\ No newline at end of file") + [NEWLINE]

  lemma LineShape(line: Text, prefix: CodeUnit)
    ensures PatchLine(line, prefix) == [prefix] + (line + if EndsInNewline(line) then [] else MARKER)
    ensures |MARKER| == 29 && MARKER[0] == NEWLINE && MARKER[1] == BACKSLASH
  {
  }

  /** Where the first newline of a printed line is. */
  function Stop(line: Text): int {
    if EndsInNewline(line) then |line| - 1 else |line|
  }

  function Shown(line: Text): Text {
    line + if EndsInNewline(line) then [] else MARKER
  }

  lemma ShownStop(line: Text, x: Text)
    requires IsLine(line)
    ensures var t := Shown(line) + x;
            && 0 <= Stop(line) < |t| && t[Stop(line)] == NEWLINE && (forall i :: 0 <= i < Stop(line) ==> t[i] != NEWLINE)
            && (EndsInNewline(line) ==> t[Stop(line) + 1..] == x)
            && (!EndsInNewline(line) ==> Stop(line) + 1 < |t| && t[Stop(line) + 1] == BACKSLASH)
  {
    LineShape(line, KEPT);
  }

  lemma ShownDecides(a: Text, b: Text, x: Text, y: Text)
    requires IsLine(a) && IsLine(b) && Follows(x) && Follows(y) && Shown(a) + x == Shown(b) + y
    ensures a == b && x == y
  {
    ShownStop(a, x);
    ShownStop(b, y);
    hide Shown;
    var t := Shown(a) + x;
    assert Stop(a) == Stop(b);
    assert EndsInNewline(a) == EndsInNewline(b) by {
      assert EndsInNewline(a) && x != [] ==> t[Stop(a) + 1] == x[0];
      assert EndsInNewline(b) && y != [] ==> t[Stop(b) + 1] == y[0];
    }
    SameShown(a, b, x, y);
  }

  lemma SameShown(a: Text, b: Text, x: Text, y: Text)
    requires EndsInNewline(a) == EndsInNewline(b) && |a| == |b| && Shown(a) + x == Shown(b) + y
    ensures a == b && x == y
  {
    SamePrefix(Shown(a), x, Shown(b), y);
    if EndsInNewline(a) {
      assert Shown(a) == a && Shown(b) == b;
    } else {
      SamePrefix(a, MARKER, b, MARKER);
    }
  }

  // ----- hunks -----

  datatype Tagged = Tagged(prefix: CodeUnit, line: Text)

  function Tag(lines: seq<Text>, prefix: CodeUnit): seq<Tagged> {
    if lines == [] then [] else [Tagged(prefix, lines[0])] + Tag(lines[1..], prefix)
  }

  /** A hunk's lines in printing order. */
  function Body(h: Hunk): seq<Tagged> {
    Tag(h.contextBefore, KEPT) + Tag(h.removed, REMOVED) + Tag(h.added, ADDED) + Tag(h.contextAfter, KEPT)
  }

  function BodyText(ts: seq<Tagged>): Text {
    if ts == [] then [] else PatchLine(ts[0].line, ts[0].prefix) + BodyText(ts[1..])
  }

  predicate Printable(ts: seq<Tagged>) {
    forall i :: 0 <= i < |ts| ==> IsPrefix(ts[i].prefix) && IsLine(ts[i].line)
  }

  lemma {:induction false} BodyTextSum(a: seq<Tagged>, b: seq<Tagged>)
    ensures BodyText(a + b) == BodyText(a) + BodyText(b)
  {
    if a == [] {
      assert a + b == b;
    } else {
      assert (a + b)[1..] == a[1..] + b;
      BodyTextSum(a[1..], b);
    }
  }

  lemma {:induction false} TaggedText(lines: seq<Text>, prefix: CodeUnit)
    ensures PatchLines(lines, prefix) == BodyText(Tag(lines, prefix))
  {
    if lines != [] {
      TaggedText(lines[1..], prefix);
      assert Tag(lines, prefix)[1..] == Tag(lines[1..], prefix);
    }
  }

  lemma HunkShape(h: Hunk)
    ensures HunkText(h) == HunkHeader(h) + BodyText(Body(h))
  {
    hide PatchLines, BodyText, Tag, HunkHeader;
    TaggedText(h.contextBefore, KEPT);
    TaggedText(h.removed, REMOVED);
    TaggedText(h.added, ADDED);
    TaggedText(h.contextAfter, KEPT);
    var a, b, c, d := Tag(h.contextBefore, KEPT), Tag(h.removed, REMOVED), Tag(h.added, ADDED), Tag(h.contextAfter, KEPT);
    BodyTextSum(a, b);
    BodyTextSum(a + b, c);
    BodyTextSum(a + b + c, d);
  }

  predicate AtHunk(x: Text) {
    x == [] || x[0] == AT
  }

  /** Printed lines up to the next hunk determine the lines. */
  lemma {:induction false} BodyDecides(s: seq<Tagged>, t: seq<Tagged>, x: Text, y: Text)
    requires Printable(s) && Printable(t) && AtHunk(x) && AtHunk(y) && BodyText(s) + x == BodyText(t) + y
    ensures s == t && x == y
    decreases |s| + |t|
  {
    if s == [] || t == [] {
      BodyStart(s, x);
      BodyStart(t, y);
      assert s == [] && t == [];
    } else {
      var a, b := BodyText(s[1..]) + x, BodyText(t[1..]) + y;
      BodySplit(s, x);
      BodySplit(t, y);
      BodyFollows(s[1..], x);
      BodyFollows(t[1..], y);
      SameFirst(s[0].prefix, Shown(s[0].line) + a, t[0].prefix, Shown(t[0].line) + b);
      ShownDecides(s[0].line, t[0].line, a, b);
      BodyDecides(s[1..], t[1..], x, y);
      assert s == [s[0]] + s[1..] && t == [t[0]] + t[1..];
    }
  }

  lemma Associate(p: Text, l: Text, r: Text, x: Text)
    ensures ((p + l) + r) + x == p + (l + (r + x))
  {
  }

  lemma BodySplit(s: seq<Tagged>, x: Text)
    requires s != []
    ensures BodyText(s) + x == [s[0].prefix] + (Shown(s[0].line) + (BodyText(s[1..]) + x))
  {
    hide Shown, EndsInNewline, PatchLine;
    ShownLine(s[0].line, s[0].prefix);
    Associate([s[0].prefix], Shown(s[0].line), BodyText(s[1..]), x);
  }

  lemma ShownLine(line: Text, prefix: CodeUnit)
    ensures PatchLine(line, prefix) == [prefix] + Shown(line)
  {
    LineShape(line, prefix);
  }

  lemma BodyFollows(s: seq<Tagged>, x: Text)
    requires Printable(s) && AtHunk(x)
    ensures Follows(BodyText(s) + x)
  {
    if s != [] {
      BodySplit(s, x);
    } else {
      assert BodyText(s) + x == x;
    }
  }

  lemma BodyStart(s: seq<Tagged>, x: Text)
    requires Printable(s) && AtHunk(x)
    ensures s == [] <==> AtHunk(BodyText(s) + x)
    ensures s == [] ==> BodyText(s) + x == x
  {
    if s != [] {
      BodySplit(s, x);
      assert IsPrefix(s[0].prefix);
    } else {
      assert BodyText(s) + x == x;
    }
  }

  // ----- headers and whole patches -----

  const BEFORE_OLD: Text := Ascii("@@ -")
  const BEFORE_COUNT: Text := Ascii(",")
  const BEFORE_NEW: Text := Ascii(" +")
  const AFTER_NEW: Text := Ascii(" @@") + [NEWLINE]

  lemma Punctuation()
    ensures |BEFORE_OLD| == 4 && BEFORE_OLD[0] == AT
    ensures |BEFORE_COUNT| == 1 && !IsDigit(BEFORE_COUNT[0])
    ensures |BEFORE_NEW| == 2 && !IsDigit(BEFORE_NEW[0])
    ensures |AFTER_NEW| == 4 && !IsDigit(AFTER_NEW[0])
  {
  }

  /** The header read from the left, before the rest of the patch. */
  function FromLeft(h: Hunk, x: Text): Text {
    BEFORE_OLD + (Decimal(h.oldStart) + (BEFORE_COUNT + (Decimal(h.oldCount) + (BEFORE_NEW
    + (Decimal(h.newStart) + (BEFORE_COUNT + (Decimal(h.newCount) + (AFTER_NEW + x))))))))
  }

  lemma NineParts(a: Text, b: Text, c: Text, d: Text, e: Text, f: Text, g: Text, h: Text, i: Text, j: Text, x: Text)
    ensures (a + b + c + d + e + f + g + h + i + j) + x == a + (b + (c + (d + (e + (f + (g + (h + ((i + j) + x))))))))
  {
    var q := h + ((i + j) + x);
    assert (a + b + c + d + e + f + g + h + i + j) + x == (a + b + c + d + e + f + g) + q;
    var r := e + (f + (g + q));
    assert (a + b + c + d + e + f + g) + q == (a + b + c + d) + r;
    assert (a + b + c + d) + r == a + (b + (c + (d + r)));
  }

  lemma HeaderFromLeft(h: Hunk, x: Text)
    ensures HunkHeader(h) + x == FromLeft(h, x) && FromLeft(h, x) != [] && FromLeft(h, x)[0] == AT
  {
    hide Decimal, Ascii;
    Punctuation();
    NineParts(Ascii("@@ -"), Decimal(h.oldStart), Ascii(","), Decimal(h.oldCount), Ascii(" +"), Decimal(h.newStart),
              Ascii(","), Decimal(h.newCount), Ascii(" @@"), [NEWLINE], x);
  }

  predicate SameNumbers(h: Hunk, k: Hunk) {
    h.oldStart == k.oldStart && h.oldCount == k.oldCount && h.newStart == k.newStart && h.newCount == k.newCount
  }

  lemma PieceDecides(mark: Text, n: nat, m: nat, x: Text, y: Text)
    requires mark + (Decimal(n) + x) == mark + (Decimal(m) + y)
    requires x != [] && y != [] && !IsDigit(x[0]) && !IsDigit(y[0])
    ensures n == m && x == y
  {
    SamePrefix(mark, Decimal(n) + x, mark, Decimal(m) + y);
    NumberEnds(n, m, x, y);
  }

  lemma HeaderDecides(h: Hunk, k: Hunk, x: Text, y: Text)
    requires HunkHeader(h) + x == HunkHeader(k) + y
    ensures SameNumbers(h, k) && x == y
  {
    hide Decimal;
    HeaderFromLeft(h, x);
    HeaderFromLeft(k, y);
    Punctuation();
    var h8, k8 := AFTER_NEW + x, AFTER_NEW + y;
    var h6, k6 := BEFORE_COUNT + (Decimal(h.newCount) + h8), BEFORE_COUNT + (Decimal(k.newCount) + k8);
    var h4, k4 := BEFORE_NEW + (Decimal(h.newStart) + h6), BEFORE_NEW + (Decimal(k.newStart) + k6);
    var h2, k2 := BEFORE_COUNT + (Decimal(h.oldCount) + h4), BEFORE_COUNT + (Decimal(k.oldCount) + k4);
    PieceDecides(BEFORE_OLD, h.oldStart, k.oldStart, h2, k2);
    PieceDecides(BEFORE_COUNT, h.oldCount, k.oldCount, h4, k4);
    PieceDecides(BEFORE_NEW, h.newStart, k.newStart, h6, k6);
    PieceDecides(BEFORE_COUNT, h.newCount, k.newCount, h8, k8);
    SamePrefix(AFTER_NEW, x, AFTER_NEW, y);
  }

  /** Every line of the hunks is a line. */
  predicate WholeLines(hunks: seq<Hunk>) {
    forall k :: 0 <= k < |hunks| ==> Printable(Body(hunks[k]))
  }

  /** The same header numbers and the same lines under the same marks. */
  predicate SameReading(hunks: seq<Hunk>, others: seq<Hunk>) {
    |hunks| == |others| && forall k :: 0 <= k < |hunks| ==> SameNumbers(hunks[k], others[k]) && Body(hunks[k]) == Body(others[k])
  }

  lemma ThreeTexts(a: Text, b: Text, c: Text)
    ensures (a + b) + c == a + (b + c)
  {
  }

  lemma FirstHunk(hunks: seq<Hunk>)
    requires hunks != []
    ensures HunksText(hunks) == HunkHeader(hunks[0]) + (BodyText(Body(hunks[0])) + HunksText(hunks[1..]))
  {
    hide HunkHeader, Body, BodyText, HunkText;
    HunkShape(hunks[0]);
    ThreeTexts(HunkHeader(hunks[0]), BodyText(Body(hunks[0])), HunksText(hunks[1..]));
  }

  lemma HunksStart(hunks: seq<Hunk>)
    ensures AtHunk(HunksText(hunks)) && (hunks == [] <==> HunksText(hunks) == [])
  {
    if hunks != [] {
      hide HunkHeader, Body, BodyText, HunksText, FromLeft;
      FirstHunk(hunks);
      HeaderFromLeft(hunks[0], BodyText(Body(hunks[0])) + HunksText(hunks[1..]));
    }
  }

  /** The text of a list of hunks determines their numbers and lines. */
  lemma {:induction false} HunksTextDecides(hunks: seq<Hunk>, others: seq<Hunk>)
    requires WholeLines(hunks) && WholeLines(others) && HunksText(hunks) == HunksText(others)
    ensures SameReading(hunks, others)
  {
    hide HunksText, HunkHeader, Body, BodyText;
    HunksStart(hunks);
    HunksStart(others);
    if hunks != [] {
      var h, k, x, y := hunks[0], others[0], HunksText(hunks[1..]), HunksText(others[1..]);
      FirstHunk(hunks);
      FirstHunk(others);
      HeaderDecides(h, k, BodyText(Body(h)) + x, BodyText(Body(k)) + y);
      HunksStart(hunks[1..]);
      HunksStart(others[1..]);
      BodyDecides(Body(h), Body(k), x, y);
      HunksTextDecides(hunks[1..], others[1..]);
      assert forall i :: 0 < i < |hunks| ==> hunks[i] == hunks[1..][i - 1];
      assert forall i :: 0 < i < |others| ==> others[i] == others[1..][i - 1];
    }
  }

  // ----- reading the old and the new lines back -----

  /** The lines under any mark but `skip`. */
  function Under(ts: seq<Tagged>, skip: CodeUnit): seq<Text> {
    if ts == [] then []
    else (if ts[0].prefix == skip then [] else [ts[0].line]) + Under(ts[1..], skip)
  }

  lemma {:induction false} LinesSum(a: seq<Tagged>, b: seq<Tagged>, skip: CodeUnit)
    ensures Under(a + b, skip) == Under(a, skip) + Under(b, skip)
  {
    if a == [] {
      assert a + b == b;
    } else {
      assert (a + b)[1..] == a[1..] + b;
      LinesSum(a[1..], b, skip);
    }
  }

  lemma {:induction false} LinesOfTag(lines: seq<Text>, prefix: CodeUnit, skip: CodeUnit)
    ensures Under(Tag(lines, prefix), skip) == if prefix == skip then [] else lines
  {
    if lines != [] {
      LinesOfTag(lines[1..], prefix, skip);
      assert Tag(lines, prefix)[1..] == Tag(lines[1..], prefix);
    }
  }

  lemma BodyRebuilds(h: Hunk)
    ensures Under(Body(h), ADDED) == h.Old() && Under(Body(h), REMOVED) == h.New()
  {
    hide Under, Tag;
    var a, b, c, d := Tag(h.contextBefore, KEPT), Tag(h.removed, REMOVED), Tag(h.added, ADDED), Tag(h.contextAfter, KEPT);
    BodyPart(h, ADDED);
    BodyPart(h, REMOVED);
    LinesOfTag(h.contextBefore, KEPT, ADDED);
    LinesOfTag(h.removed, REMOVED, ADDED);
    LinesOfTag(h.added, ADDED, ADDED);
    LinesOfTag(h.contextAfter, KEPT, ADDED);
    LinesOfTag(h.contextBefore, KEPT, REMOVED);
    LinesOfTag(h.removed, REMOVED, REMOVED);
    LinesOfTag(h.added, ADDED, REMOVED);
    LinesOfTag(h.contextAfter, KEPT, REMOVED);
  }

  lemma BodyPart(h: Hunk, skip: CodeUnit)
    ensures Under(Body(h), skip) == Under(Tag(h.contextBefore, KEPT), skip) + Under(Tag(h.removed, REMOVED), skip)
                                    + Under(Tag(h.added, ADDED), skip) + Under(Tag(h.contextAfter, KEPT), skip)
  {
    hide Under, Tag;
    var a, b, c, d := Tag(h.contextBefore, KEPT), Tag(h.removed, REMOVED), Tag(h.added, ADDED), Tag(h.contextAfter, KEPT);
    LinesSum(a, b, skip);
    LinesSum(a + b, c, skip);
    LinesSum(a + b + c, d, skip);
  }

  /** The hunk fits where its header says, with the old lines it names. */
  predicate Fits(base: seq<Text>, h: Hunk, consumed: nat, produced: nat) {
    var at := h.oldStart - 1;
    && consumed <= at && at + h.oldCount <= |base| && produced + (at - consumed) == h.newStart - 1
    && |h.New()| == h.newCount && base[at..at + h.oldCount] == h.Old()
  }

  lemma FitsAlike(base: seq<Text>, h: Hunk, k: Hunk, consumed: nat, produced: nat)
    requires SameNumbers(h, k) && h.Old() == k.Old() && h.New() == k.New()
    ensures Fits(base, h, consumed, produced) == Fits(base, k, consumed, produced)
    ensures Fits(base, h, consumed, produced) ==>
              h.oldStart >= 1 && h.newStart >= 1 && h.oldStart - 1 + h.oldCount <= |base| && consumed <= h.oldStart - 1
  {
  }

  lemma ApplyStep(base: seq<Text>, hunks: seq<Hunk>, consumed: nat, produced: nat)
    requires hunks != [] && consumed <= |base|
    ensures var h := hunks[0];
            if !Fits(base, h, consumed, produced) then Apply(base, hunks, consumed, produced).None?
            else
              var rest := Apply(base, hunks[1..], h.oldStart - 1 + h.oldCount, h.newStart - 1 + h.newCount);
              Apply(base, hunks, consumed, produced) ==
              if rest.None? then None else Some(base[consumed..h.oldStart - 1] + h.New() + rest.value)
  {
  }

  lemma SameTail(hunks: seq<Hunk>, others: seq<Hunk>)
    requires SameReading(hunks, others) && hunks != []
    ensures others != [] && SameNumbers(hunks[0], others[0]) && Body(hunks[0]) == Body(others[0])
    ensures SameReading(hunks[1..], others[1..])
  {
    hide Body;
  }

  lemma {:induction false} SameReadingAppliesAlike(base: seq<Text>, hunks: seq<Hunk>, others: seq<Hunk>, consumed: nat, produced: nat)
    requires SameReading(hunks, others) && consumed <= |base|
    ensures Apply(base, hunks, consumed, produced) == Apply(base, others, consumed, produced)
    decreases |hunks|
  {
    if hunks != [] {
      hide Apply, Body, Under, Fits, SameReading;
      var h, k := hunks[0], others[0];
      SameTail(hunks, others);
      BodyRebuilds(h);
      BodyRebuilds(k);
      FitsAlike(base, h, k, consumed, produced);
      ApplyStep(base, hunks, consumed, produced);
      ApplyStep(base, others, consumed, produced);
      if Fits(base, h, consumed, produced) {
        SameReadingAppliesAlike(base, hunks[1..], others[1..], h.oldStart - 1 + h.oldCount, h.newStart - 1 + h.newCount);
      }
    }
  }

  lemma {:induction false} TagWhole(lines: seq<Text>, prefix: CodeUnit)
    requires IsPrefix(prefix) && forall i :: 0 <= i < |lines| ==> IsLine(lines[i])
    ensures Printable(Tag(lines, prefix))
  {
    if lines != [] { TagWhole(lines[1..], prefix); }
  }

  lemma WholeSlice(part: seq<Text>, lines: seq<Text>, at: nat)
    requires at + |part| <= |lines| && part == lines[at..at + |part|]
    requires forall i :: 0 <= i < |lines| ==> IsLine(lines[i])
    ensures forall i :: 0 <= i < |part| ==> IsLine(part[i])
  {
    forall i | 0 <= i < |part| ensures IsLine(part[i]) {
      assert part[i] == lines[at + i];
    }
  }

  predicate WholeHunk(h: Hunk) {
    && (forall i :: 0 <= i < |h.contextBefore| ==> IsLine(h.contextBefore[i]))
    && (forall i :: 0 <= i < |h.removed| ==> IsLine(h.removed[i]))
    && (forall i :: 0 <= i < |h.added| ==> IsLine(h.added[i]))
    && (forall i :: 0 <= i < |h.contextAfter| ==> IsLine(h.contextAfter[i]))
  }

  lemma HunkWhole(base: seq<Text>, desired: seq<Text>, w: Window, h: Hunk)
    requires w.baseStart <= w.baseEnd <= |base| && w.desiredStart <= w.desiredEnd <= |desired| && HunkFor(base, desired, w, h)
    requires forall i :: 0 <= i < |base| ==> IsLine(base[i])
    requires forall i :: 0 <= i < |desired| ==> IsLine(desired[i])
    ensures Printable(Body(h)) && WholeHunk(h)
  {
    hide IsLine, LongestPrefix, LongestSuffix;
    var before, after := h.Old(), h.New();
    var c, r := |h.contextBefore|, |h.removed|;
    WholeSlice(before, base, w.baseStart);
    WholeSlice(after, desired, w.desiredStart);
    WholeSlice(h.contextBefore, before, 0);
    WholeSlice(h.removed, before, c);
    WholeSlice(h.added, after, c);
    WholeSlice(h.contextAfter, before, c + r);
    TagWhole(h.contextBefore, KEPT);
    TagWhole(h.removed, REMOVED);
    TagWhole(h.added, ADDED);
    TagWhole(h.contextAfter, KEPT);
  }

  /** The emitted hunks consist of whole lines of the two files. */
  lemma EmittedWhole(e: Edit, hunks: seq<Hunk>)
    requires e.Valid() && HunksFor(e.baseLines, e.desiredLines, e.merged, hunks)
    ensures WholeLines(hunks) && forall k :: 0 <= k < |hunks| ==> WholeHunk(hunks[k])
  {
    hide HunkFor, SplitLines, Body, Printable, WholeHunk;
    LinesRejoin(e.base);
    LinesRejoin(e.desired);
    forall k | 0 <= k < |hunks| ensures Printable(Body(hunks[k])) && WholeHunk(hunks[k]) {
      HunkWhole(e.baseLines, e.desiredLines, e.merged[k], hunks[k]);
    }
  }

  /** No hunk's old range is empty, and a new one is, and is printed as line 1 with count 0, exactly when the desired
      file is empty. */
  lemma EmptyRangeIff(e: Edit, hunks: seq<Hunk>, k: nat)
    requires e.Valid() && HunksFor(e.baseLines, e.desiredLines, e.merged, hunks) && k < |hunks|
    ensures hunks[k].oldCount > 0 && (hunks[k].newCount == 0 <==> e.desired == [])
    ensures hunks[k].newCount == 0 ==> hunks[k].newStart == 1
  {
    assert e.InFiles(k) && HunkFor(e.baseLines, e.desiredLines, e.merged[k], hunks[k]);
    EmptyWindowIff(e, k);
  }

  /** Whatever whole-line hunks a reader takes the printed patch for, they turn the base lines into the desired
      lines exactly when the edit is aligned. */
  lemma PatchTextDecides(e: Edit, hunks: seq<Hunk>, read: seq<Hunk>, path: Text)
    requires e.Valid() && HunksFor(e.baseLines, e.desiredLines, e.merged, hunks)
    requires WholeLines(read) && EditText(path, read) == EditText(path, hunks)
    ensures Apply(e.baseLines, read, 0, 0) == Some(e.desiredLines) <==> Aligned(e)
  {
    hide HunksText, Apply, Aligned;
    RecoversIffAligned(e, hunks);
    EmittedWhole(e, hunks);
    var head := EditText(path, []);
    HeadThenHunks(path, hunks);
    HeadThenHunks(path, read);
    SamePrefix(head, HunksText(read), head, HunksText(hunks));
    HunksTextDecides(read, hunks);
    SameReadingAppliesAlike(e.baseLines, read, hunks, 0, 0);
  }

  lemma HeadThenHunks(path: Text, hunks: seq<Hunk>)
    ensures EditText(path, hunks) == EditText(path, []) + HunksText(hunks)
  {
    hide Ascii;
    assert HunksText([]) == [];
  }
}
