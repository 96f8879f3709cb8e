/** Hunks cut from a pair of line windows, and what applying a list of hunks means. */
module PatchHunks {
  import opened Utf16
  import opened Results
  import opened Lines
  import opened PatchWindows

  /** One hunk: the four header numbers as printed, and its four runs of lines. */
  datatype Hunk = Hunk(oldStart: nat, oldCount: nat, newStart: nat, newCount: nat,
                       contextBefore: seq<Text>, removed: seq<Text>, added: seq<Text>, contextAfter: seq<Text>)
  {
    function Old(): seq<Text> { contextBefore + removed + contextAfter }
    function New(): seq<Text> { contextBefore + added + contextAfter }
  }

  /** p lines agree at the front, and it cannot be p + 1. */
  predicate LongestPrefix(before: seq<Text>, after: seq<Text>, p: nat) {
    p <= |before| && p <= |after| && before[..p] == after[..p]
    && (p < |before| && p < |after| ==> before[p] != after[p])
  }

  /** s lines agree at the back behind a prefix of p lines, and it cannot be s + 1. */
  predicate LongestSuffix(before: seq<Text>, after: seq<Text>, p: nat, s: nat) {
    p + s <= |before| && p + s <= |after| && before[|before| - s..] == after[|after| - s..]
    && (p + s < |before| && p + s < |after| ==> before[|before| - 1 - s] != after[|after| - 1 - s])
  }

  /** The hunk of a window: its header describes both ranges, its lines rebuild both, and no line
      that both ends share is reported as changed. */
  ghost predicate HunkFor(baseLines: seq<Text>, desiredLines: seq<Text>, w: Window, h: Hunk)
    requires w.baseStart <= w.baseEnd <= |baseLines| && w.desiredStart <= w.desiredEnd <= |desiredLines|
  {
    var before, after := baseLines[w.baseStart..w.baseEnd], desiredLines[w.desiredStart..w.desiredEnd];
    && h.oldStart == w.baseStart + 1 && h.newStart == w.desiredStart + 1
    && h.oldCount == |before| && h.newCount == |after|
    && h.Old() == before && h.New() == after
    && LongestPrefix(before, after, |h.contextBefore|)
    && LongestSuffix(before, after, |h.contextBefore|, |h.contextAfter|)
  }

  method SharedPrefix(before: seq<Text>, after: seq<Text>) returns (prefix: nat)
    ensures LongestPrefix(before, after, prefix)
  {
    prefix := 0;
    while prefix < |before| && prefix < |after| && before[prefix] == after[prefix]
      invariant 0 <= prefix <= |before| && prefix <= |after| && before[..prefix] == after[..prefix]
    {
      prefix := prefix + 1;
    }
  }

  method SharedSuffix(before: seq<Text>, after: seq<Text>, prefix: nat) returns (suffix: nat)
    requires prefix <= |before| && prefix <= |after|
    ensures LongestSuffix(before, after, prefix, suffix)
  {
    suffix := 0;
    while suffix < |before| - prefix && suffix < |after| - prefix
          && before[|before| - 1 - suffix] == after[|after| - 1 - suffix]
      invariant 0 <= suffix <= |before| - prefix && suffix <= |after| - prefix
      invariant before[|before| - suffix..] == after[|after| - suffix..]
    {
      ghost var b, a := |before| - 1 - suffix, |after| - 1 - suffix;
      assert before[b..] == [before[b]] + before[b + 1..] && after[a..] == [after[a]] + after[a + 1..];
      suffix := suffix + 1;
    }
  }

  method BuildHunk(baseLines: seq<Text>, desiredLines: seq<Text>, w: Window) returns (h: Hunk)
    requires w.baseStart <= w.baseEnd <= |baseLines| && w.desiredStart <= w.desiredEnd <= |desiredLines|
    ensures HunkFor(baseLines, desiredLines, w, h)
  {
    var before, after := baseLines[w.baseStart..w.baseEnd], desiredLines[w.desiredStart..w.desiredEnd];
    var prefix := SharedPrefix(before, after);
    var suffix := SharedSuffix(before, after, prefix);
    var contextAfter := if suffix == 0 then [] else before[|before| - suffix..];
    ThreeRuns(before, prefix, suffix);
    ThreeRuns(after, prefix, suffix);
    h := Hunk(w.baseStart + 1, |before|, w.desiredStart + 1, |after|,
              before[..prefix], before[prefix..|before| - suffix], after[prefix..|after| - suffix], contextAfter);
  }

  lemma ThreeRuns(s: seq<Text>, prefix: nat, suffix: nat)
    requires prefix + suffix <= |s|
    ensures s[..prefix] + s[prefix..|s| - suffix] + s[|s| - suffix..] == s
  {
  }

  /** Applies hunks front to back. `consumed` base lines are used up and `produced` lines are out;
      every hunk must lie at or after `consumed`, start where its header says on both sides, have the
      counts its header says, and find its old lines in the base. */
  function Apply(base: seq<Text>, hunks: seq<Hunk>, consumed: nat, produced: nat): Option<seq<Text>>
    requires consumed <= |base|
    decreases |hunks|
  {
    if hunks == [] then Some(base[consumed..])
    else
      var h := hunks[0];
      var at := h.oldStart - 1;
      if at < consumed || at + h.oldCount > |base| || produced + (at - consumed) != h.newStart - 1
         || |h.New()| != h.newCount || base[at..at + h.oldCount] != h.Old() then None
      else
        match Apply(base, hunks[1..], at + h.oldCount, h.newStart - 1 + h.newCount)
        case None => None
        case Some(rest) => Some(base[consumed..at] + h.New() + rest)
  }

  /** Windows in order within both files, from `consumed` and `produced` on. */
  predicate InOrder(windows: seq<Window>, baseCount: nat, desiredCount: nat, consumed: nat, produced: nat) {
    consumed <= baseCount && produced <= desiredCount &&
    if windows == [] then true
    else
      var w := windows[0];
      && consumed <= w.baseStart <= w.baseEnd && produced <= w.desiredStart <= w.desiredEnd
      && InOrder(windows[1..], baseCount, desiredCount, w.baseEnd, w.desiredEnd)
  }

  lemma {:induction false} InOrderBounds(windows: seq<Window>, baseCount: nat, desiredCount: nat, consumed: nat, produced: nat)
    requires InOrder(windows, baseCount, desiredCount, consumed, produced)
    ensures forall k :: 0 <= k < |windows| ==>
              windows[k].baseStart <= windows[k].baseEnd <= baseCount
              && windows[k].desiredStart <= windows[k].desiredEnd <= desiredCount
  {
    if windows != [] {
      InOrderBounds(windows[1..], baseCount, desiredCount, windows[0].baseEnd, windows[0].desiredEnd);
    }
  }

  ghost predicate HunksFor(baseLines: seq<Text>, desiredLines: seq<Text>, windows: seq<Window>, hunks: seq<Hunk>) {
    |hunks| == |windows| && forall k :: 0 <= k < |windows| ==>
      && windows[k].baseStart <= windows[k].baseEnd <= |baseLines|
      && windows[k].desiredStart <= windows[k].desiredEnd <= |desiredLines|
      && HunkFor(baseLines, desiredLines, windows[k], hunks[k])
  }

  /** The lines between the windows are the same in both files. */
  predicate GapsMatch(base: seq<Text>, desired: seq<Text>, windows: seq<Window>, consumed: nat, produced: nat)
    requires InOrder(windows, |base|, |desired|, consumed, produced)
  {
    if windows == [] then base[consumed..] == desired[produced..]
    else
      InOrderBounds(windows, |base|, |desired|, consumed, produced);
      && base[consumed..windows[0].baseStart] == desired[produced..windows[0].desiredStart]
      && GapsMatch(base, desired, windows[1..], windows[0].baseEnd, windows[0].desiredEnd)
  }

  /** Applying the first hunk, which is that of window w: it fits only where both files are in step. */
  lemma ApplyFirst(base: seq<Text>, desired: seq<Text>, w: Window, hunks: seq<Hunk>, consumed: nat, produced: nat)
    requires consumed <= w.baseStart <= w.baseEnd <= |base| && produced <= w.desiredStart <= w.desiredEnd <= |desired|
    requires hunks != [] && HunkFor(base, desired, w, hunks[0])
    ensures var rest := Apply(base, hunks[1..], w.baseEnd, w.desiredEnd);
            Apply(base, hunks, consumed, produced) ==
            if produced + (w.baseStart - consumed) != w.desiredStart || rest.None? then None
            else Some(base[consumed..w.baseStart] + desired[w.desiredStart..w.desiredEnd] + rest.value)
  {
    assert hunks[0].oldStart - 1 + hunks[0].oldCount == w.baseEnd;
  }

  /** Applying the hunks of the windows yields the desired lines exactly when the gaps match. */
  lemma {:induction false} ApplyRecoversIffGapsMatch(base: seq<Text>, desired: seq<Text>, windows: seq<Window>,
                                                     hunks: seq<Hunk>, consumed: nat, produced: nat)
    requires InOrder(windows, |base|, |desired|, consumed, produced) && HunksFor(base, desired, windows, hunks)
    ensures Apply(base, hunks, consumed, produced) == Some(desired[produced..])
            <==> GapsMatch(base, desired, windows, consumed, produced)
    decreases |windows|
  {
    if windows == [] {
      ApplyNothing(base, hunks, consumed, produced);
    } else {
      hide Apply, HunkFor;
      var w := windows[0];
      assert HunkFor(base, desired, w, hunks[0]);
      ApplyRecoversIffGapsMatch(base, desired, windows[1..], hunks[1..], w.baseEnd, w.desiredEnd);
      InOrderBounds(windows, |base|, |desired|, consumed, produced);
      ApplyFirst(base, desired, w, hunks, consumed, produced);
      if produced + (w.baseStart - consumed) == w.desiredStart {
        WindowCut(base, desired, w, consumed, produced, Apply(base, hunks[1..], w.baseEnd, w.desiredEnd));
      }
    }
  }

  lemma ApplyNothing(base: seq<Text>, hunks: seq<Hunk>, consumed: nat, produced: nat)
    requires hunks == [] && consumed <= |base|
    ensures Apply(base, hunks, consumed, produced) == Some(base[consumed..])
  {
  }

  lemma WindowCut(base: seq<Text>, desired: seq<Text>, w: Window, consumed: nat, produced: nat, rest: Option<seq<Text>>)
    requires consumed <= w.baseStart <= w.baseEnd <= |base| && produced <= w.desiredStart <= w.desiredEnd <= |desired|
    requires produced + (w.baseStart - consumed) == w.desiredStart
    ensures rest.Some? ==>
      (base[consumed..w.baseStart] + desired[w.desiredStart..w.desiredEnd] + rest.value == desired[produced..]
       <==> base[consumed..w.baseStart] == desired[produced..w.desiredStart] && rest.value == desired[w.desiredEnd..])
  {
    if rest.Some? {
      var a, b, r := base[consumed..w.baseStart], desired[w.desiredStart..w.desiredEnd], rest.value;
      var d := desired[produced..];
      assert d == desired[produced..w.desiredStart] + b + desired[w.desiredEnd..];
      if a + b + r == d {
        assert (a + b + r)[..|a|] == a && (a + b + r)[|a| + |b|..] == r;
        assert d[..|a|] == desired[produced..w.desiredStart] && d[|a| + |b|..] == desired[w.desiredEnd..];
      }
    }
  }
}
