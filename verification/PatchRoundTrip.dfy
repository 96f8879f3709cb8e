/** The reader of patch text gets back what was printed (git-review.ts). */
module PatchRoundTrip {
  import opened Utf16
  import opened Results
  import opened Lines
  import opened PatchHunks
  import opened PatchPrinting
  import opened PatchText
  import opened PatchReader

  // ----- one line -----

  lemma {:induction false} LineEndAt(t: Text, k: nat)
    requires k < |t| && t[k] == 0x0A && forall i :: 0 <= i < k ==> t[i] != 0x0A
    ensures LineEnd(t) == k + 1
  {
    if k > 0 { LineEndAt(t[1..], k - 1); }
  }

  lemma MarkerText()
    ensures MARKER == [0x0A] + NO_NEWLINE
  {
    assert Ascii("\\ No newline at end of file") + [NEWLINE] == NO_NEWLINE;
    assert MARKER == [NEWLINE] + (Ascii("\\ No newline at end of file") + [NEWLINE]);
  }

  predicate Mark(prefix: CodeUnit) {
    prefix == 0x20 || prefix == 0x2D || prefix == 0x2B
  }

  /** A printed line with its newline. */
  predicate Raw(raw: Text) {
    raw != [] && raw[|raw| - 1] == 0x0A && forall i :: 0 <= i < |raw| - 1 ==> raw[i] != 0x0A
  }

  lemma RawLine(prefix: CodeUnit, raw: Text, rest: Text)
    requires Mark(prefix) && Raw(raw)
    ensures var t := [prefix] + raw + rest;
            t != [] && t[0] == prefix && LineEnd(t) == |raw| + 1 && t[1..|raw| + 1] == raw && t[|raw| + 1..] == rest
  {
    LineEndAt([prefix] + raw + rest, |raw|);
  }

  lemma ReadWhole(prefix: CodeUnit, raw: Text, x: Text)
    requires Mark(prefix) && Raw(raw) && !(NO_NEWLINE <= x)
    ensures MarkedLine([prefix] + raw + x) == Some((raw, x))
  {
    hide LineEnd;
    RawLine(prefix, raw, x);
  }

  lemma ReadCut(prefix: CodeUnit, line: Text, x: Text)
    requires Mark(prefix) && Raw(line + [0x0A])
    ensures MarkedLine([prefix] + (line + [0x0A]) + (NO_NEWLINE + x)) == Some((line, x))
  {
    hide LineEnd;
    var raw, rest := line + [0x0A], NO_NEWLINE + x;
    RawLine(prefix, raw, rest);
    assert rest[|NO_NEWLINE|..] == x && raw[..|raw| - 1] == line && NO_NEWLINE <= rest;
  }

  lemma LineRead(line: Text, prefix: CodeUnit, x: Text)
    requires IsLine(line) && Mark(prefix) && Follows(x)
    ensures var t := PatchLine(line, prefix) + x;
            t != [] && t[0] == prefix && MarkedLine(t) == Some((line, x))
  {
    hide MarkedLine, Follows;
    LineShape(line, prefix);
    MarkerText();
    if EndsInNewline(line) {
      NoMarker(x);
      ReadWhole(prefix, line, x);
      assert PatchLine(line, prefix) + x == [prefix] + line + x;
    } else {
      ReadCut(prefix, line, x);
      assert PatchLine(line, prefix) + x == [prefix] + (line + [0x0A]) + (NO_NEWLINE + x);
    }
  }

  lemma NoMarker(x: Text)
    requires Follows(x)
    ensures !(NO_NEWLINE <= x)
  {
    assert NO_NEWLINE[0] == 0x5C;
  }

  // ----- the lines of a hunk -----

  function Both(olds: seq<Text>, news: seq<Text>, more: Body): Body {
    Body(olds + more.olds, news + more.news, more.rest)
  }

  lemma {:induction false} LinesRead(lines: seq<Text>, prefix: CodeUnit, x: Text)
    requires Mark(prefix) && Follows(x) && ReadBody(x).Some? && forall i :: 0 <= i < |lines| ==> IsLine(lines[i])
    ensures Follows(PatchLines(lines, prefix) + x)
    ensures ReadBody(PatchLines(lines, prefix) + x)
            == Some(Both(if prefix == 0x2B then [] else lines, if prefix == 0x2D then [] else lines, ReadBody(x).value))
  {
    var more := ReadBody(x).value;
    if lines == [] {
      assert PatchLines(lines, prefix) + x == x;
      assert [] + more.olds == more.olds && [] + more.news == more.news;
    } else {
      hide MarkedLine, PatchLine, IsLine;
      LinesRead(lines[1..], prefix, x);
      var y := PatchLines(lines[1..], prefix) + x;
      LineRead(lines[0], prefix, y);
      OneMoreLine(lines, prefix, x);
      hide PatchLines;
      assert ReadBody(PatchLine(lines[0], prefix) + y) == Before(prefix, lines[0], ReadBody(y).value);
      FrontLine(lines, more.olds);
      FrontLine(lines, more.news);
    }
  }

  lemma OneMoreLine(lines: seq<Text>, prefix: CodeUnit, x: Text)
    requires lines != []
    ensures PatchLines(lines, prefix) + x == PatchLine(lines[0], prefix) + (PatchLines(lines[1..], prefix) + x)
  {
  }

  lemma FrontLine(lines: seq<Text>, more: seq<Text>)
    requires lines != []
    ensures [lines[0]] + (lines[1..] + more) == lines + more
  {
  }

  /** What may follow a hunk. */
  predicate Ends(x: Text) {
    x == [] || x[0] == 0x40
  }

  lemma BodyRead(h: Hunk, x: Text)
    requires WholeHunk(h) && Ends(x)
    ensures ReadBody(PatchLines(h.contextBefore, KEPT) + PatchLines(h.removed, REMOVED) + PatchLines(h.added, ADDED)
                     + PatchLines(h.contextAfter, KEPT) + x)
            == Some(Body(h.Old(), h.New(), x))
  {
    BodyEnds(x);
    BothParts(h, x);
    hide ReadBody, PatchLines, Follows, IsLine, Both;
    var d := PatchLines(h.contextAfter, KEPT) + x;
    LinesRead(h.contextAfter, KEPT, x);
    var c := PatchLines(h.added, ADDED) + d;
    LinesRead(h.added, ADDED, d);
    var b := PatchLines(h.removed, REMOVED) + c;
    LinesRead(h.removed, REMOVED, c);
    LinesRead(h.contextBefore, KEPT, b);
    Regroup(PatchLines(h.contextBefore, KEPT), PatchLines(h.removed, REMOVED), PatchLines(h.added, ADDED),
            PatchLines(h.contextAfter, KEPT), x);
  }

  lemma BothParts(h: Hunk, x: Text)
    ensures Both(h.contextBefore, h.contextBefore,
                 Both(h.removed, [], Both([], h.added, Both(h.contextAfter, h.contextAfter, Body([], [], x)))))
            == Body(h.Old(), h.New(), x)
  {
    assert h.contextBefore + (h.removed + ([] + (h.contextAfter + []))) == h.Old();
    assert h.contextBefore + ([] + (h.added + (h.contextAfter + []))) == h.New();
  }

  lemma Regroup(a: Text, b: Text, c: Text, d: Text, x: Text)
    ensures a + b + c + d + x == a + (b + (c + (d + x)))
  {
    assert a + b + c + d + x == a + b + c + (d + x);
  }

  lemma BodyEnds(x: Text)
    requires Ends(x)
    ensures Follows(x) && ReadBody(x) == Some(Body([], [], x))
  {
  }

  // ----- headers -----

  lemma {:induction false} DigitsRead(n: nat, x: Text)
    ensures Digits(Decimal(n) + x, 0) == Digits(x, n)
  {
    var d := (0x30 + n % 10) as CodeUnit;
    assert ([d] + x)[1..] == x;
    if n < 10 {
      assert Decimal(n) + x == [d] + x;
    } else {
      DigitsRead(n / 10, [d] + x);
      assert Decimal(n) + x == Decimal(n / 10) + ([d] + x);
    }
  }

  lemma NumberRead(n: nat, literal: Text, x: Text)
    requires literal != [] && !(0x30 <= literal[0] <= 0x39)
    ensures Number(Decimal(n) + (literal + x), literal) == Some((n, x))
  {
    DigitsRead(n, literal + x);
    assert (literal + x)[|literal|..] == x;
  }

  lemma HeaderText(h: Hunk, x: Text)
    ensures HunkHeader(h) + x
            == [0x40, 0x40, 0x20, 0x2D] + (Decimal(h.oldStart) + ([0x2C] + (Decimal(h.oldCount) + ([0x20, 0x2B]
               + (Decimal(h.newStart) + ([0x2C] + (Decimal(h.newCount) + ([0x20, 0x40, 0x40, 0x0A] + x))))))))
  {
    hide Decimal;
    assert Ascii("@@ -") == [0x40, 0x40, 0x20, 0x2D] && Ascii(",") == [0x2C] && Ascii(" +") == [0x20, 0x2B];
    assert Ascii(" @@") + [NEWLINE] == [0x20, 0x40, 0x40, 0x0A];
    var a, b, c, d := Decimal(h.oldStart), Decimal(h.oldCount), Decimal(h.newStart), Decimal(h.newCount);
    assert HunkHeader(h) == [0x40, 0x40, 0x20, 0x2D] + a + [0x2C] + b + [0x20, 0x2B] + c + [0x2C] + d + (Ascii(" @@") + [NEWLINE]);
  }

  /** The hunk as it is read: without its context told apart. */
  function Plain(h: Hunk): Hunk {
    Hunk(if h.oldCount == 0 then h.oldStart + 1 else h.oldStart, h.oldCount, h.newStart, h.newCount, [], h.Old(), h.New(), [])
  }

  lemma HunkRead(h: Hunk, body: Text, rest: Text)
    requires ReadBody(body) == Some(Body(h.Old(), h.New(), rest)) && |rest| <= |body|
    requires |h.Old()| == h.oldCount && |h.New()| == h.newCount
    ensures ReadHunks(HunkHeader(h) + body)
            == if ReadHunks(rest).None? then None else Some([Plain(h)] + ReadHunks(rest).value)
  {
    hide Digits, Decimal, HunkHeader, ReadBody;
    HeaderText(h, body);
    var e := [0x20, 0x40, 0x40, 0x0A] + body;
    var d := [0x2C] + (Decimal(h.newCount) + e);
    var c := [0x20, 0x2B] + (Decimal(h.newStart) + d);
    var b := [0x2C] + (Decimal(h.oldCount) + c);
    NumberRead(h.newCount, [0x20, 0x40, 0x40, 0x0A], body);
    NumberRead(h.newStart, [0x2C], Decimal(h.newCount) + e);
    NumberRead(h.oldCount, [0x20, 0x2B], Decimal(h.newStart) + d);
    NumberRead(h.oldStart, [0x2C], Decimal(h.oldCount) + c);
    var t := HunkHeader(h) + body;
    assert t[4..] == Decimal(h.oldStart) + b;
  }

  function Plains(hunks: seq<Hunk>): seq<Hunk> {
    if hunks == [] then [] else [Plain(hunks[0])] + Plains(hunks[1..])
  }

  predicate Countable(hunks: seq<Hunk>) {
    forall k :: 0 <= k < |hunks| ==> WholeHunk(hunks[k]) && |hunks[k].Old()| == hunks[k].oldCount && |hunks[k].New()| == hunks[k].newCount
  }

  lemma {:induction false} HunksRead(hunks: seq<Hunk>)
    requires Countable(hunks)
    ensures Ends(HunksText(hunks)) && ReadHunks(HunksText(hunks)) == Some(Plains(hunks))
  {
    if hunks != [] {
      hide ReadHunks, ReadBody, HunkHeader, PatchLines, WholeHunk, Decimal;
      var h, x := hunks[0], HunksText(hunks[1..]);
      HunksRead(hunks[1..]);
      BodyRead(h, x);
      var lines := PatchLines(h.contextBefore, KEPT) + PatchLines(h.removed, REMOVED) + PatchLines(h.added, ADDED)
                   + PatchLines(h.contextAfter, KEPT);
      HunkRead(h, lines + x, x);
      HeaderFirst(HunkHeader(h), PatchLines(h.contextBefore, KEPT), PatchLines(h.removed, REMOVED), PatchLines(h.added, ADDED),
                  PatchLines(h.contextAfter, KEPT), x);
      assert HunksText(hunks) == HunkHeader(h) + (lines + x);
      HeaderStart(h, lines + x);
    }
  }

  lemma HeaderFirst(header: Text, a: Text, b: Text, c: Text, d: Text, x: Text)
    ensures header + a + b + c + d + x == header + (a + b + c + d + x)
  {
    assert header + a + b + c + d == header + (a + b + c + d);
  }

  lemma HeaderStart(h: Hunk, x: Text)
    ensures HunkHeader(h) + x != [] && (HunkHeader(h) + x)[0] == 0x40
  {
    hide Decimal, HunkHeader;
    HeaderText(h, x);
  }

  /** Applying what was read is applying what was printed, if no old range is empty. */
  lemma {:induction false} PlainsApply(base: seq<Text>, hunks: seq<Hunk>, consumed: nat, produced: nat)
    requires consumed <= |base| && forall k :: 0 <= k < |hunks| ==> hunks[k].oldCount > 0
    ensures Apply(base, Plains(hunks), consumed, produced) == Apply(base, hunks, consumed, produced)
    decreases |hunks|
  {
    if hunks != [] {
      hide Apply;
      var h := hunks[0];
      var p := Plains(hunks);
      assert p[0] == Plain(h) && p[1..] == Plains(hunks[1..]);
      assert Plain(h).Old() == h.Old() && Plain(h).New() == h.New();
      FitsAlike(base, h, Plain(h), consumed, produced);
      ApplyStep(base, hunks, consumed, produced);
      ApplyStep(base, p, consumed, produced);
      if Fits(base, h, consumed, produced) {
        PlainsApply(base, hunks[1..], h.oldStart - 1 + h.oldCount, h.newStart - 1 + h.newCount);
      }
    }
  }

  // ----- files -----

  lemma {:induction false} LineBreak(a: Text, x: Text)
    requires NEWLINE !in a
    ensures LineEnd(a + [0x0A] + x) == |a| + 1
    ensures (a + [0x0A] + x)[..|a| + 1] == a + [0x0A] && (a + [0x0A] + x)[|a| + 1..] == x
    ensures Chomp(a + [0x0A]) == a
  {
    var t := a + [0x0A] + x;
    forall i | 0 <= i < |a| ensures t[i] != 0x0A { assert a[i] in a; }
    LineEndAt(t, |a|);
    assert (a + [0x0A])[..|a|] == a;
  }

  const MINUS: Text := [0x2D, 0x2D, 0x2D, 0x20]
  const PLUS: Text := [0x2B, 0x2B, 0x2B, 0x20, 0x62, 0x2F]
  const NOTHING: Text := [0x2F, 0x64, 0x65, 0x76, 0x2F, 0x6E, 0x75, 0x6C, 0x6C]

  /** Source and target lines and the hunks. */
  lemma FilesRead(source: Text, target: Text, x: Text)
    requires NEWLINE !in source && NEWLINE !in target
    ensures ReadPatch(MINUS + (source + [0x0A] + (PLUS + target + [0x0A] + x)))
            == if (Expect(source, [0x61, 0x2F]).None? && source != NOTHING) || ReadHunks(x).None? then None
               else Some(Patch(Expect(source, [0x61, 0x2F]), target, ReadHunks(x).value))
  {
    hide ReadHunks, LineEnd, Chomp;
    var rest := PLUS + target + [0x0A] + x;
    var t := MINUS + (source + [0x0A] + rest);
    assert MINUS <= t && t[4..] == source + [0x0A] + rest;
    assert SkipHead(t) == Some(t);
    LineBreak(source, rest);
    LineBreak(PLUS + target, x);
    assert PLUS <= PLUS + target && (PLUS + target)[|PLUS|..] == target;
  }

  lemma SkipLine(line: Text, x: Text)
    requires NEWLINE !in line && HeadStart(line)
    ensures SkipHead(line + [0x0A] + x) == SkipHead(x)
  {
    LineBreak(line, x);
    assert (line + [0x0A] + x)[0] == line[0];
  }

  /** Reading skips a line of the head. */
  lemma HeadRead(line: Text, x: Text)
    requires NEWLINE !in line && HeadStart(line)
    ensures ReadPatch(line + [0x0A] + x) == ReadPatch(x)
    ensures HeadLines(line + [0x0A] + x) == [line] + HeadLines(x)
  {
    SkipLine(line, x);
    LineBreak(line, x);
    assert (line + [0x0A] + x)[0] == line[0];
  }

  lemma NoHead(x: Text)
    ensures HeadLines(MINUS + x) == []
  {
    assert MINUS <= MINUS + x;
  }

  lemma NoNewline(s: string)
    requires forall i :: 0 <= i < |s| ==> s[i] < '\U{80}' && s[i] != '\n'
    ensures NEWLINE !in Ascii(s)
  {
    forall i | 0 <= i < |s| ensures Ascii(s)[i] != NEWLINE {
      assert '\n' as int == 10;
    }
  }

  predicate HeadStart(t: Text) {
    t != [] && t[0] != 0x2D
  }

  lemma HeadLine(a: Text, path: Text, b: Text)
    requires HeadStart(a) && NEWLINE !in a && NEWLINE !in b && NEWLINE !in path
    ensures HeadStart(a + path + b + path) && NEWLINE !in a + path + b + path
  {
  }

  /** What the printer's literals are. */
  lemma Literals()
    ensures Ascii("--- a/") == MINUS + [0x61, 0x2F] && Ascii("+++ b/") == PLUS && Ascii("--- /dev/null") == MINUS + NOTHING
    ensures NEWLINE !in Ascii("diff --eden a/") && NEWLINE !in Ascii("diff --git a/") && NEWLINE !in Ascii(" b/")
    ensures NEWLINE !in Ascii("new file mode 100644")
    ensures HeadStart(Ascii("diff --eden a/")) && HeadStart(Ascii("diff --git a/")) && HeadStart(Ascii("new file mode 100644"))
    ensures Ascii("@@ -0,0 +1,") == Ascii("@@ -") + [0x30] + Ascii(",") + [0x30] + Ascii(" +") + [0x31] + Ascii(",")
  {
    NoNewline("diff --eden a/");
    NoNewline("diff --git a/");
    NoNewline(" b/");
    NoNewline("new file mode 100644");
  }

  lemma EditHeads(path: Text)
    ensures [Ascii("diff --eden a/") + path + Ascii(" b/") + path] == EditHead(path)
  {
    assert Ascii("diff --eden a/") == [0x64, 0x69, 0x66, 0x66, 0x20, 0x2D, 0x2D, 0x65, 0x64, 0x65, 0x6E, 0x20, 0x61, 0x2F];
    assert Ascii(" b/") == [0x20, 0x62, 0x2F];
  }

  lemma NewFileHeads(path: Text)
    ensures [Ascii("diff --git a/") + path + Ascii(" b/") + path, Ascii("new file mode 100644")] == NewFileHead(path)
  {
    assert Ascii("diff --git a/") == [0x64, 0x69, 0x66, 0x66, 0x20, 0x2D, 0x2D, 0x67, 0x69, 0x74, 0x20, 0x61, 0x2F];
    assert Ascii(" b/") == [0x20, 0x62, 0x2F];
    NewFileMode();
  }

  lemma NewFileMode()
    ensures Ascii("new file mode 100644")
            == [0x6E, 0x65, 0x77, 0x20, 0x66, 0x69, 0x6C, 0x65, 0x20, 0x6D, 0x6F, 0x64, 0x65, 0x20, 0x31, 0x30, 0x30, 0x36, 0x34, 0x34]
  {
  }

  lemma FilesRegroup(minus: Text, source: Text, plus: Text, target: Text, x: Text)
    ensures minus + source + [0x0A] + plus + target + [0x0A] + x == minus + (source + [0x0A] + (plus + target + [0x0A] + x))
  {
    assert minus + source + [0x0A] + plus + target + [0x0A] + x == minus + source + [0x0A] + (plus + target + [0x0A] + x);
  }

  lemma LineRegroup(a: Text, b: Text, c: Text, d: Text, x: Text)
    ensures a + b + c + d + [0x0A] + x == (a + b + c + d) + [0x0A] + x
  {
  }

  /** The printed edit reads as a patch of that file with these hunks. */
  lemma EditRead(path: Text, hunks: seq<Hunk>)
    requires NEWLINE !in path && Countable(hunks)
    ensures ReadPatch(EditText(path, hunks)) == Some(Patch(Some(path), path, Plains(hunks)))
    ensures HeadLines(EditText(path, hunks)) == EditHead(path)
  {
    Literals();
    EditHeads(path);
    hide ReadHunks, HunksText, ReadPatch, HeadLines, Ascii, EditHead, NewFileHead;
    HunksRead(hunks);
    var x := HunksText(hunks);
    var line := Ascii("diff --eden a/") + path + Ascii(" b/") + path;
    var source := [0x61, 0x2F] + path;
    var rest := MINUS + (source + [0x0A] + (PLUS + path + [0x0A] + x));
    FilesRegroup(MINUS, source, PLUS, path, x);
    HeadLine(Ascii("diff --eden a/"), path, Ascii(" b/"));
    assert EditText(path, hunks) == line + [0x0A] + (MINUS + source + [0x0A] + PLUS + path + [0x0A] + x);
    HeadRead(line, rest);
    NoHead(source + [0x0A] + (PLUS + path + [0x0A] + x));
    FilesRead(source, path, x);
    assert source[2..] == path && [0x61, 0x2F] <= source;
  }

  lemma NewFileParts(path: Text, lines: seq<Text>, h: Hunk, line: Text, mode: Text)
    requires h == Hunk(0, 0, 1, |lines|, [], [], lines, [])
    requires line == Ascii("diff --git a/") + path + Ascii(" b/") + path && mode == Ascii("new file mode 100644")
    ensures NewFileText(path, lines)
            == line + [0x0A] + (mode + [0x0A] + (MINUS + (NOTHING + [0x0A] + (PLUS + path + [0x0A] + HunksText([h])))))
  {
    Literals();
    NewHunkText(lines, h);
    hide PatchLines, Ascii, HunksText, Decimal, HunkText;
    var x := HunksText([h]);
    var start, count, end, body := Ascii("@@ -0,0 +1,"), Decimal(|lines|), Ascii(" @@"), PatchLines(lines, ADDED);
    HeaderFirst([], start, count, end + [0x0A], [], body);
    NewRegroup(line, mode, path, x);
    TailRegroup(line + [0x0A] + mode + [0x0A] + (MINUS + NOTHING) + [0x0A] + PLUS + path + [0x0A], start, count, end, body);
  }

  lemma NewRegroup(line: Text, mode: Text, path: Text, x: Text)
    ensures line + [0x0A] + mode + [0x0A] + (MINUS + NOTHING) + [0x0A] + PLUS + path + [0x0A] + x
            == line + [0x0A] + (mode + [0x0A] + (MINUS + (NOTHING + [0x0A] + (PLUS + path + [0x0A] + x))))
  {
    FilesRegroup(MINUS, NOTHING, PLUS, path, x);
    var files := MINUS + NOTHING + [0x0A] + PLUS + path + [0x0A] + x;
    assert line + [0x0A] + mode + [0x0A] + (MINUS + NOTHING) + [0x0A] + PLUS + path + [0x0A] + x == line + [0x0A] + mode + [0x0A] + files;
  }

  lemma TailRegroup(head: Text, a: Text, b: Text, c: Text, d: Text)
    ensures head + a + b + c + [0x0A] + d == head + (a + b + c + [0x0A] + d)
  {
  }

  lemma NoLines(prefix: CodeUnit)
    ensures PatchLines([], prefix) == []
  {
  }

  lemma NewHeader(h: Hunk)
    requires h.oldStart == 0 && h.oldCount == 0 && h.newStart == 1
    ensures HunkHeader(h) == Ascii("@@ -0,0 +1,") + Decimal(h.newCount) + Ascii(" @@") + [NEWLINE]
  {
    Literals();
    assert Decimal(0) == [0x30] && Decimal(1) == [0x31];
    hide Ascii, Decimal;
  }

  lemma NewHunkText(lines: seq<Text>, h: Hunk)
    requires h == Hunk(0, 0, 1, |lines|, [], [], lines, [])
    ensures HunksText([h]) == Ascii("@@ -0,0 +1,") + Decimal(|lines|) + Ascii(" @@") + [NEWLINE] + PatchLines(lines, ADDED)
  {
    NewHeader(h);
    NoLines(KEPT);
    NoLines(REMOVED);
    OneHunk(h);
    hide PatchLines, Ascii, Decimal, HunkHeader, HunksText;
    assert PatchLines(h.contextBefore, KEPT) == [] && PatchLines(h.removed, REMOVED) == [] && PatchLines(h.contextAfter, KEPT) == [];
    Trim(HunkHeader(h), PatchLines(lines, ADDED));
  }

  lemma OneHunk(h: Hunk)
    ensures HunksText([h]) == HunkText(h)
  {
    hide HunkText;
    assert [h][1..] == [] && HunksText([]) == [];
  }

  lemma Trim(a: Text, b: Text)
    ensures a + [] + [] + b + [] == a + b
  {
  }

  lemma NewCountable(content: Text, h: Hunk)
    requires h == Hunk(0, 0, 1, |SplitLines(content)|, [], [], SplitLines(content), [])
    ensures Countable([h]) && Plains([h]) == [Plain(h)] && Applied(Patch(None, [], [Plain(h)]), []) == Some(SplitLines(content))
  {
    hide SplitLines, Apply;
    LinesRejoin(content);
    assert h.New() == SplitLines(content) && h.Old() == [];
    PlainOne(h);
    NewLines(SplitLines(content), h);
  }

  /** The printed new file reads as a patch that makes it. */
  lemma NewFileRead(path: Text, content: Text)
    requires NEWLINE !in path
    ensures var p := ReadPatch(NewFileText(path, SplitLines(content)));
            p.Some? && p.value.source == None && p.value.target == path && Applied(p.value, []) == Some(SplitLines(content))
    ensures HeadLines(NewFileText(path, SplitLines(content))) == NewFileHead(path)
  {
    Literals();
    NewFileHeads(path);
    var lines := SplitLines(content);
    var h := Hunk(0, 0, 1, |lines|, [], [], lines, []);
    NewCountable(content, h);
    var line, mode := Ascii("diff --git a/") + path + Ascii(" b/") + path, Ascii("new file mode 100644");
    NewFileParts(path, lines, h, line, mode);
    HeadLine(Ascii("diff --git a/"), path, Ascii(" b/"));
    hide ReadHunks, ReadPatch, HeadLines, SplitLines, HunksText, Ascii, EditHead, NewFileHead, NewFileText, HunkText, Apply,
      Expect, HeadStart, Countable, Plains;
    HunksRead([h]);
    var x := HunksText([h]);
    var rest := MINUS + (NOTHING + [0x0A] + (PLUS + path + [0x0A] + x));
    TwoHeads(line, mode, NOTHING + [0x0A] + (PLUS + path + [0x0A] + x));
    NewlineFree();
    FilesRead(NOTHING, path, x);
  }

  lemma TwoHeads(line: Text, mode: Text, x: Text)
    requires NEWLINE !in line && HeadStart(line) && NEWLINE !in mode && HeadStart(mode)
    ensures var t := line + [0x0A] + (mode + [0x0A] + (MINUS + x));
            ReadPatch(t) == ReadPatch(MINUS + x) && HeadLines(t) == [line, mode]
  {
    hide ReadPatch, HeadLines, HeadStart;
    HeadRead(line, mode + [0x0A] + (MINUS + x));
    HeadRead(mode, MINUS + x);
    NoHead(x);
  }

  lemma NewlineFree()
    ensures NEWLINE !in NOTHING && Expect(NOTHING, [0x61, 0x2F]).None?
  {
    assert NOTHING[0] == 0x2F;
  }

  lemma PlainOne(h: Hunk)
    ensures Plains([h]) == [Plain(h)]
  {
    assert [h][1..] == [];
  }

  lemma NewLines(lines: seq<Text>, h: Hunk)
    requires h == Hunk(0, 0, 1, |lines|, [], [], lines, [])
    ensures Apply([], [Plain(h)], 0, 0) == Some(lines)
  {
    var p := Plain(h);
    var base: seq<Text> := [];
    assert p.New() == lines && p.Old() == [];
    assert [p][1..] == [] && base[0..0] == [];
    assert Apply(base, [], 0, |lines|) == Some(base[0..]);
    ApplyStep(base, [p], 0, 0);
    assert base[0..0] + lines + base[0..] == lines;
  }

  // ----- paths that are no lines -----

  lemma {:induction false} LineNewline(t: Text)
    requires t != []
    ensures forall i :: 0 <= i < LineEnd(t) - 1 ==> t[i] != NEWLINE
  {
    if t[0] != NEWLINE && |t| > 1 {
      LineNewline(t[1..]);
      forall i | 0 <= i < LineEnd(t) - 1 ensures t[i] != NEWLINE {
        if i > 0 { assert t[i] == t[1..][i - 1]; }
      }
    }
  }

  /** Whatever text is read, the file it is for is named on one line. */
  lemma TargetIsOneLine(t: Text)
    ensures ReadPatch(t).Some? ==> NEWLINE !in ReadPatch(t).value.target
  {
    hide ReadHunks;
    if ReadPatch(t).Some? {
      var head := SkipHead(t).value;
      var rest := head[4..][LineEnd(head[4..])..];
      LineNewline(rest);
      var line := Chomp(rest[..LineEnd(rest)]);
      assert forall i :: 0 <= i < |line| ==> line[i] == rest[i];
      assert forall i :: 0 <= i < |line| ==> line[i] != NEWLINE;
    }
  }
}
