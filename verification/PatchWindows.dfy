/** Line windows of the resolved spans, their merging, and their hunks (git-review.ts). */
module PatchWindows {
  import opened Utf16
  import opened Results
  import opened ReviewAnchors
  import opened Lines

  datatype Window = Window(baseStart: nat, baseEnd: nat, desiredStart: nat, desiredEnd: nat)

  function Min(a: int, b: int): int { if a < b then a else b }
  function Max(a: int, b: int): int { if a < b then b else a }

  /** Three lines of context around the span's lines on both sides, clamped to the files. */
  function WindowOf(base: Text, desired: Text, s: Resolved): Window
    requires SpanReplaced(base, desired, s)
  {
    Window(Max(0, LineOf(base, s.start) - 3),
           Min(|SplitLines(base)|, LineOf(base, s.end - 1) + 4),
           Max(0, LineOf(desired, s.desiredStart) - 3),
           Min(|SplitLines(desired)|, LineOf(desired, Max(s.desiredStart, s.desiredEnd - 1)) + 4))
  }

  function WindowsOf(base: Text, desired: Text, spans: seq<Resolved>): (windows: seq<Window>)
    requires forall i :: 0 <= i < |spans| ==> SpanReplaced(base, desired, spans[i])
    ensures |windows| == |spans|
    ensures forall i :: 0 <= i < |spans| ==> windows[i] == WindowOf(base, desired, spans[i])
  {
    seq(|spans|, i requires 0 <= i < |spans| => WindowOf(base, desired, spans[i]))
  }

  predicate Touches(previous: Window, w: Window) {
    w.baseStart <= previous.baseEnd || w.desiredStart <= previous.desiredEnd
  }

  function Extended(previous: Window, w: Window): Window {
    previous.(baseEnd := Max(previous.baseEnd, w.baseEnd), desiredEnd := Max(previous.desiredEnd, w.desiredEnd))
  }

  function Merge(windows: seq<Window>): seq<Window> {
    if windows == [] then []
    else
      var merged, w := Merge(windows[..|windows| - 1]), windows[|windows| - 1];
      if merged != [] && Touches(merged[|merged| - 1], w)
      then merged[..|merged| - 1] + [Extended(merged[|merged| - 1], w)]
      else merged + [w]
  }

  method MergeWindows(windows: seq<Window>) returns (merged: seq<Window>)
    ensures merged == Merge(windows)
  {
    merged := [];
    for i := 0 to |windows|
      invariant merged == Merge(windows[..i])
    {
      assert windows[..i + 1][..i] == windows[..i];
      var w := windows[i];
      if merged != [] && Touches(merged[|merged| - 1], w) {
        merged := merged[|merged| - 1 := Extended(merged[|merged| - 1], w)];
      } else {
        merged := merged + [w];
      }
    }
    assert windows[..|windows|] == windows;
  }

  /** The index of the first span in each merged window. */
  function Firsts(windows: seq<Window>): (firsts: seq<nat>)
    ensures |firsts| == |Merge(windows)|
  {
    if windows == [] then []
    else
      var merged, w := Merge(windows[..|windows| - 1]), windows[|windows| - 1];
      var firsts := Firsts(windows[..|windows| - 1]);
      if merged != [] && Touches(merged[|merged| - 1], w) then firsts else firsts + [|windows| - 1]
  }

  ghost predicate EndsAscend(windows: seq<Window>) {
    forall i, j :: 0 <= i < j < |windows| ==>
      windows[i].baseEnd <= windows[j].baseEnd && windows[i].desiredEnd <= windows[j].desiredEnd
  }

  /** The index of the last of n spans in merged window k. */
  function LastIn(firsts: seq<nat>, k: nat, n: nat): int
    requires k < |firsts|
  {
    if k + 1 < |firsts| then firsts[k + 1] - 1 else n - 1
  }

  /** Merged window k runs from its first span's window start to its last span's window end, and
      the next one starts strictly later on both sides. */
  ghost predicate GroupShape(windows: seq<Window>, merged: seq<Window>, firsts: seq<nat>, k: nat)
    requires k < |merged| == |firsts|
  {
    var f, l, m := firsts[k], LastIn(firsts, k, |windows|), merged[k];
    && f <= l < |windows| && (k == 0 ==> f == 0)
    && m == Window(windows[f].baseStart, windows[l].baseEnd, windows[f].desiredStart, windows[l].desiredEnd)
    && (k + 1 < |merged| ==> l + 1 < |windows| && !Touches(m, windows[l + 1]))
  }

  ghost predicate Grouped(windows: seq<Window>, merged: seq<Window>, firsts: seq<nat>) {
    && |merged| == |firsts| && (windows == [] <==> merged == [])
    && forall k :: 0 <= k < |merged| ==> GroupShape(windows, merged, firsts, k)
  }

  lemma {:induction false} MergedGroups(windows: seq<Window>)
    requires EndsAscend(windows)
    ensures Grouped(windows, Merge(windows), Firsts(windows))
  {
    if windows != [] {
      var front := windows[..|windows| - 1];
      MergedGroups(front);
      MergedStep(front, windows[|windows| - 1], Merge(front), Firsts(front), Merge(windows), Firsts(windows));
      assert front + [windows[|windows| - 1]] == windows;
    }
  }

  lemma MergedStep(front: seq<Window>, w: Window, merged: seq<Window>, firsts: seq<nat>,
                   merged': seq<Window>, firsts': seq<nat>)
    requires EndsAscend(front + [w]) && Grouped(front, merged, firsts) && |merged'| == |firsts'|
    requires if merged != [] && Touches(merged[|merged| - 1], w)
             then merged' == merged[..|merged| - 1] + [Extended(merged[|merged| - 1], w)] && firsts' == firsts
             else merged' == merged + [w] && firsts' == firsts + [|front|]
    ensures Grouped(front + [w], merged', firsts')
  {
    var windows := front + [w];
    assert forall i :: 0 <= i < |front| ==> windows[i] == front[i] && windows[i].baseEnd <= windows[|front|].baseEnd
                                            && windows[i].desiredEnd <= windows[|front|].desiredEnd;
    forall k | 0 <= k < |merged'| ensures GroupShape(windows, merged', firsts', k) {
      if k < |merged| {
        assert GroupShape(front, merged, firsts, k);
      } else {
        assert k > 0 ==> GroupShape(front, merged, firsts, k - 1);
      }
    }
  }
}
