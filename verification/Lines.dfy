/** Lines of a text, their start offsets, and the binary search from offset to line (git-review.ts). */
module Lines {
  import opened Utf16

  /** Just past the first newline, or the end of the text. */
  function LineEnd(t: Text): (n: nat)
    requires t != []
    ensures 0 < n <= |t|
  {
    if t[0] == NEWLINE || |t| == 1 then 1 else 1 + LineEnd(t[1..])
  }

  /** `value.match(/[^\n]*\n|[^\n]+$/gu) ?? []`. */
  function SplitLines(t: Text): seq<Text> {
    if t == [] then [] else [t[..LineEnd(t)]] + SplitLines(t[LineEnd(t)..])
  }

  function Newlines(t: Text): nat {
    if t == [] then 0 else (if t[0] == NEWLINE then 1 else 0) + Newlines(t[1..])
  }

  predicate EndsInNewline(t: Text) {
    t != [] && t[|t| - 1] == NEWLINE
  }

  /** A line can start at offset o. */
  predicate Boundary(t: Text, o: int) {
    0 <= o <= |t| && (o == 0 || t[o - 1] == NEWLINE)
  }

  lemma {:induction false} NewlinesAdd(a: Text, b: Text)
    ensures Newlines(a + b) == Newlines(a) + Newlines(b)
  {
    if a == [] {
      assert a + b == b;
    } else {
      NewlinesAdd(a[1..], b);
      assert (a + b)[1..] == a[1..] + b;
    }
  }

  lemma NewlinesUpTo(t: Text, i: nat, j: nat)
    requires i <= j <= |t|
    ensures Newlines(t[..j]) == Newlines(t[..i]) + Newlines(t[i..j])
  {
    NewlinesAdd(t[..i], t[i..j]);
    assert t[..i] + t[i..j] == t[..j];
  }

  lemma NewlinesStep(t: Text, i: nat)
    requires i < |t|
    ensures Newlines(t[..i + 1]) == Newlines(t[..i]) + if t[i] == NEWLINE then 1 else 0
  {
    NewlinesUpTo(t, i, i + 1);
    assert t[i..i + 1] == [t[i]];
    assert [t[i]][1..] == [];
  }

  lemma {:induction false} FirstLine(t: Text)
    requires t != []
    ensures var n := LineEnd(t);
            && Newlines(t[..n - 1]) == 0
            && (t[n - 1] == NEWLINE || n == |t|)
            && forall i :: 0 <= i < n - 1 ==> t[i] != NEWLINE
  {
    if t[0] != NEWLINE && |t| > 1 {
      var u := t[1..];
      FirstLine(u);
      assert t[..LineEnd(t) - 1][1..] == u[..LineEnd(u) - 1];
      forall i | 0 < i < LineEnd(t) - 1 ensures t[i] != NEWLINE { assert t[i] == u[i - 1]; }
    }
  }

  lemma Cut(t: Text, n: nat, o: nat)
    requires n <= o <= |t|
    ensures t[..o][n..] == t[n..o] && t[n..][..o - n] == t[n..o] && t[n..][o - n..] == t[o..] && t[..o][..n] == t[..n]
  {
  }

  /** Newlines before an offset beyond the first line. */
  lemma NewlinesPastFirstLine(t: Text, o: nat)
    requires t != [] && LineEnd(t) <= o <= |t|
    ensures var n := LineEnd(t);
            Newlines(t[..o]) == Newlines(t[n..o]) + if t[n - 1] == NEWLINE then 1 else 0
  {
    var n := LineEnd(t);
    FirstLine(t);
    NewlinesStep(t, n - 1);
    NewlinesUpTo(t, n, o);
  }

  /** At a boundary the text's lines are the lines before it and the lines after it. */
  lemma {:induction false} SplitAtBoundary(t: Text, o: nat)
    requires Boundary(t, o)
    ensures SplitLines(t) == SplitLines(t[..o]) + SplitLines(t[o..])
    ensures |SplitLines(t[..o])| == Newlines(t[..o])
  {
    if o == 0 {
      assert t[0..] == t && t[..0] == [];
    } else {
      var n := LineEnd(t);
      FirstLine(t);
      SplitAtBoundary(t[n..], o - n);
      Cut(t, n, o);
      SplitPastFirstLine(t, o);
    }
  }

  lemma {:induction false} SplitPastFirstLine(t: Text, o: nat)
    requires t != [] && LineEnd(t) <= o && Boundary(t, o)
    requires var n := LineEnd(t);
             && SplitLines(t[n..]) == SplitLines(t[n..o]) + SplitLines(t[o..])
             && |SplitLines(t[n..o])| == Newlines(t[n..o])
    ensures SplitLines(t) == SplitLines(t[..o]) + SplitLines(t[o..])
    ensures |SplitLines(t[..o])| == Newlines(t[..o])
  {
    PrefixLines(t, o);
    NewlinesPastFirstLine(t, o);
    FirstLine(t);
    var first, mid, last := [t[..LineEnd(t)]], SplitLines(t[LineEnd(t)..o]), SplitLines(t[o..]);
    assert first + (mid + last) == (first + mid) + last;
  }

  lemma {:induction false} PrefixLines(t: Text, o: nat)
    requires t != [] && LineEnd(t) <= o && Boundary(t, o)
    ensures SplitLines(t[..o]) == [t[..LineEnd(t)]] + SplitLines(t[LineEnd(t)..o])
  {
    PrefixFirstLine(t, o);
    Cut(t, LineEnd(t), o);
  }

  lemma PrefixFirstLine(t: Text, o: nat)
    requires t != [] && LineEnd(t) <= o <= |t| && t[o - 1] == NEWLINE
    ensures t[..o] != [] && LineEnd(t[..o]) == LineEnd(t)
    ensures Newlines(t[..LineEnd(t)]) == 1
  {
    hide LineEnd, Newlines, SplitLines;
    FirstLine(t);
    FirstLine(t[..o]);
    var n, m := LineEnd(t), LineEnd(t[..o]);
    assert t[..o][m - 1] == t[m - 1];
    assert n == m;
    NewlinesStep(t, n - 1);
  }

  lemma {:induction false} LineCount(t: Text)
    ensures |SplitLines(t)| == Newlines(t) + if t == [] || EndsInNewline(t) then 0 else 1
  {
    if t != [] {
      FirstLine(t);
      NewlinesPastFirstLine(t, |t|);
      assert t[..|t|] == t && t[LineEnd(t)..|t|] == t[LineEnd(t)..];
      LineCount(t[LineEnd(t)..]);
    }
  }

  /** Splitting loses nothing, and a line's newline is its last unit. */
  lemma {:induction false} LinesRejoin(t: Text)
    ensures Joined(SplitLines(t)) == t
    ensures forall k :: 0 <= k < |SplitLines(t)| ==>
              var line := SplitLines(t)[k];
              line != [] && forall i :: 0 <= i < |line| - 1 ==> line[i] != NEWLINE
    ensures forall k :: 0 <= k < |SplitLines(t)| - 1 ==> EndsInNewline(SplitLines(t)[k])
  {
    if t != [] {
      var n := LineEnd(t);
      FirstLine(t);
      LinesRejoin(t[n..]);
      assert t == t[..n] + t[n..];
    }
  }

  /** Every line number up to the number of newlines is the number of some boundary. */
  lemma {:induction false} BoundaryOf(t: Text, k: nat) returns (o: nat)
    requires k <= Newlines(t)
    ensures Boundary(t, o) && Newlines(t[..o]) == k
  {
    if k == 0 {
      o := 0;
    } else {
      var n := LineEnd(t);
      FirstLine(t);
      NewlinesPastFirstLine(t, |t|);
      assert t[..|t|] == t && t[n..|t|] == t[n..];
      o := BoundaryOf(t[n..], k - 1);
      Cut(t, n, n + o);
      o := n + o;
      NewlinesPastFirstLine(t, o);
    }
  }

  lemma NewlinesMonotone(t: Text, i: nat, j: nat)
    requires i <= j <= |t|
    ensures Newlines(t[..i]) <= Newlines(t[..j])
  {
    NewlinesUpTo(t, i, j);
  }

  lemma NewlinesBefore(t: Text, o: nat)
    requires o < |t|
    ensures Newlines(t[..o]) < |SplitLines(t)|
  {
    LineCount(t);
    NewlinesMonotone(t, o, |t|);
    assert t[..|t|] == t;
    if EndsInNewline(t) {
      NewlinesMonotone(t, o, |t| - 1);
      NewlinesStep(t, |t| - 1);
    }
  }

  /** The line an offset lies in; the end of the text belongs to the last line. */
  function LineOf(t: Text, o: nat): nat
    requires o <= |t|
  {
    if o < |t| then Newlines(t[..o]) else if SplitLines(t) == [] then 0 else |SplitLines(t)| - 1
  }

  method LineStarts(lines: seq<Text>) returns (starts: seq<nat>)
    ensures |starts| == |lines| + 1
    ensures forall k :: 0 <= k <= |lines| ==> starts[k] == |Joined(lines[..k])|
  {
    starts := [0];
    for i := 0 to |lines|
      invariant |starts| == i + 1
      invariant forall k :: 0 <= k <= i ==> starts[k] == |Joined(lines[..k])|
    {
      JoinedStep(lines, i);
      starts := starts + [starts[|starts| - 1] + |lines[i]|];
    }
  }

  lemma {:induction false} JoinedStep(lines: seq<Text>, i: nat)
    requires i < |lines|
    ensures Joined(lines[..i + 1]) == Joined(lines[..i]) + lines[i]
  {
    if i == 0 {
      assert lines[..1] == [lines[0]] && lines[..1][1..] == [];
    } else {
      JoinedStep(lines[1..], i - 1);
      assert lines[..i + 1][1..] == lines[1..][..i] && lines[..i][1..] == lines[1..][..i - 1];
    }
  }

  lemma NoNewlinesBefore(t: Text)
    ensures Newlines(t[..0]) == 0
  {
  }

  /** The start of line k is a boundary with k newlines before it. */
  lemma {:induction false} StartOf(t: Text, k: nat)
    requires k < |SplitLines(t)|
    ensures var s := |Joined(SplitLines(t)[..k])|;
            s < |t| && Boundary(t, s) && Newlines(t[..s]) == k
  {
    hide Newlines;
    if k > 0 {
      var n := LineEnd(t);
      FirstLine(t);
      StartOf(t[n..], k - 1);
      assert SplitLines(t)[..k][1..] == SplitLines(t[n..])[..k - 1];
      Cut(t, n, |Joined(SplitLines(t)[..k])|);
      NewlinesPastFirstLine(t, |Joined(SplitLines(t)[..k])|);
    } else {
      NoNewlinesBefore(t);
    }
  }

  /** The binary search of lineIndex: the last line start at or before the offset, the first
      entry being taken as at or before it and the final entry (the text's end) never being returned. */
  method LineIndex(starts: seq<nat>, offset: nat) returns (low: nat)
    requires starts != [] && forall i, j :: 0 <= i < j < |starts| ==> starts[i] <= starts[j]
    ensures low == 0 || (low < |starts| - 1 && starts[low] <= offset)
    ensures low + 1 < |starts| - 1 ==> offset < starts[low + 1]
  {
    low := 0;
    var high := if |starts| >= 2 then |starts| - 2 else 0;
    while low < high
      invariant low <= high && (high == 0 || high <= |starts| - 2)
      invariant low == 0 || starts[low] <= offset
      invariant high + 1 < |starts| - 1 ==> offset < starts[high + 1]
    {
      var middle := (low + high + 1) / 2;
      if starts[middle] <= offset {
        low := middle;
      } else {
        high := middle - 1;
      }
    }
  }

  /** With the line starts of a text the search returns the number of newlines before the offset. */
  method LineAt(t: Text, starts: seq<nat>, offset: nat) returns (line: nat)
    requires |starts| == |SplitLines(t)| + 1 && offset <= |t|
    requires forall k :: 0 <= k <= |SplitLines(t)| ==> starts[k] == |Joined(SplitLines(t)[..k])|
    ensures line == LineOf(t, offset)
  {
    forall i, j | 0 <= i < j < |starts| ensures starts[i] <= starts[j] { StartsMonotone(SplitLines(t), i, j); }
    line := LineIndex(starts, offset);
    LineOfUnique(t, offset, line);
  }

  lemma {:induction false} StartsMonotone(lines: seq<Text>, i: nat, j: nat)
    requires i <= j <= |lines|
    ensures |Joined(lines[..i])| <= |Joined(lines[..j])|
    decreases j - i
  {
    if i < j {
      StartsMonotone(lines, i, j - 1);
      JoinedStep(lines, j - 1);
    }
  }

  lemma LineOfUnique(t: Text, o: nat, line: nat)
    requires o <= |t|
    requires line == 0 || (line < |SplitLines(t)| && |Joined(SplitLines(t)[..line])| <= o)
    requires line + 1 < |SplitLines(t)| ==> o < |Joined(SplitLines(t)[..line + 1])|
    ensures line == LineOf(t, o)
  {
    var lines := SplitLines(t);
    if o < |t| {
      NewlinesBefore(t, o);
      if line > 0 {
        StartOf(t, line);
        NewlinesMonotone(t, |Joined(lines[..line])|, o);
      }
      if line + 1 < |lines| {
        StartOf(t, line + 1);
        var s := |Joined(lines[..line + 1])|;
        NewlinesMonotone(t, o, s - 1);
        NewlinesStep(t, s - 1);
      }
    } else if line + 1 < |lines| {
      StartOf(t, line + 1);
    }
  }
}
