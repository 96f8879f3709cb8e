/** Command output cut into pieces of at most 8,192 UTF-8 bytes (run-command.ts). */
module OutputChunks {
  import opened Results
  import opened Utf16
  import opened Utf8

  const CHUNK_BYTES := 8_192

  /** The inner loop: the first end, counting down, at which the prefix fits. */
  function FitFrom(rest: Text, end: nat): (fit: nat)
    requires end <= |rest|
    ensures fit <= end && (fit == 0 || ByteLength(rest[..fit]) <= CHUNK_BYTES)
    ensures forall e :: fit < e <= end ==> ByteLength(rest[..e]) > CHUNK_BYTES
  {
    if end > 0 && ByteLength(rest[..end]) > CHUNK_BYTES then FitFrom(rest, end - 1) else end
  }

  function CutOf(rest: Text): nat {
    FitFrom(rest, if |rest| < CHUNK_BYTES then |rest| else CHUNK_BYTES)
  }

  /** A single unit always fits, so a cut makes progress and the source's throw is never reached. */
  lemma CutProgress(rest: Text)
    requires rest != []
    ensures 0 < CutOf(rest) <= |rest|
  {
    assert rest[..1] == [rest[0]];
    assert [rest[0]][1..] == [];
    assert ByteLength(rest[..1]) <= 3;
  }

  function Pieces(content: Text): seq<Text>
    decreases |content|
  {
    if content == [] then []
    else
      CutProgress(content);
      [content[..CutOf(content)]] + Pieces(content[CutOf(content)..])
  }

  method Chunks(content: Text) returns (result: seq<Text>)
    ensures result == Pieces(content)
  {
    if |content| == 0 {
      return [];
    }
    result := [];
    var rest := content;
    while |rest| > 0
      invariant result + Pieces(rest) == Pieces(content)
      decreases |rest|
    {
      var end := if |rest| < CHUNK_BYTES then |rest| else CHUNK_BYTES;
      while end > 0 && ByteLength(rest[..end]) > CHUNK_BYTES
        invariant 0 <= end <= |rest| && FitFrom(rest, end) == CutOf(rest)
      {
        end := end - 1;
      }
      CutProgress(rest);
      if end == 0 {
        assert false; // the source throws command_output_invalid here
      }
      result := result + [rest[..end]];
      rest := rest[end..];
    }
  }

  // ----- what is chunked and what is reported -----

  /** What the native process did: it exited, or it was cut off, failed to start or failed to clean up. */
  datatype Process = ProcessExited(exitCode: nat, stdout: seq<Byte>, stderr: seq<Byte>) | ProcessEnded(cleanedUp: bool)

  /** The exit code of an ordinary outcome, the decoded texts, and the byte counts reported for them. */
  datatype Captured = Captured(exitCode: Option<nat>, stdout: Text, stderr: Text, stdoutBytes: nat, stderrBytes: nat, cleanedUp: bool)

  /** The counts are those of the bytes received; output that is not UTF-8 on both streams is dropped on both. */
  function Capture(p: Process): Captured {
    match p
    case ProcessEnded(cleanedUp) => Captured(None, [], [], 0, 0, cleanedUp)
    case ProcessExited(exitCode, stdout, stderr) =>
      if Decode(stdout).None? || Decode(stderr).None? then Captured(None, [], [], 0, 0, true)
      else Captured(Some(exitCode), Decode(stdout).value, Decode(stderr).value, |stdout|, |stderr|, true)
  }

  // ----- bytes -----

  function TotalBytes(pieces: seq<Text>): nat {
    if pieces == [] then 0 else ByteLength(pieces[0]) + TotalBytes(pieces[1..])
  }

  /** The boundary between two texts falls inside a surrogate pair. */
  predicate SplitsPair(a: Text, b: Text) {
    a != [] && b != [] && IsHighSurrogate(a[|a| - 1]) && IsLowSurrogate(b[0])
  }

  /** How many boundaries between neighbouring pieces fall inside a surrogate pair. */
  function SplitPairs(pieces: seq<Text>): nat {
    if |pieces| < 2 then 0 else (if SplitsPair(pieces[0], pieces[1]) then 1 else 0) + SplitPairs(pieces[1..])
  }

  lemma {:induction false} BytesOfJoin(a: Text, b: Text)
    ensures ByteLength(a) + ByteLength(b) == ByteLength(a + b) + if SplitsPair(a, b) then 2 else 0
    decreases |a|
  {
    if a == [] {
      assert a + b == b;
    } else if PairAt(a, 0) {
      assert (a + b)[2..] == a[2..] + b;
      BytesOfJoin(a[2..], b);
      assert a[2..] == [] || a[2..][|a| - 3] == a[|a| - 1];
    } else if |a| == 1 {
      assert a[1..] == [] && (a + b)[1..] == b;
      if SplitsPair(a, b) { assert (a + b)[2..] == b[1..]; }
    } else {
      assert (a + b)[1..] == a[1..] + b;
      BytesOfJoin(a[1..], b);
    }
  }

  /** One more unit of the next piece would exceed the unit or the byte limit. */
  predicate CannotGrow(piece: Text, next: Text) {
    next != [] && (|piece| == CHUNK_BYTES || ByteLength(piece + [next[0]]) > CHUNK_BYTES)
  }

  /** Each piece is non-empty, within the byte limit, and as long as 8,192 units and bytes allow;
      joined they are the content. */
  lemma {:induction false} PiecesFit(content: Text)
    ensures Joined(Pieces(content)) == content
    ensures forall k :: 0 <= k < |Pieces(content)| ==>
              Pieces(content)[k] != [] && ByteLength(Pieces(content)[k]) <= CHUNK_BYTES
    ensures forall k :: 0 <= k < |Pieces(content)| - 1 ==> CannotGrow(Pieces(content)[k], Pieces(content)[k + 1])
    decreases |content|
  {
    if content != [] {
      CutProgress(content);
      var cut := CutOf(content);
      var rest := content[cut..];
      PiecesFit(rest);
      assert content == content[..cut] + rest;
      if rest != [] {
        CutProgress(rest);
        assert Pieces(rest)[0][0] == content[cut];
        assert content[..cut + 1] == content[..cut] + [content[cut]];
      }
    }
  }

  /** The bytes reported piece by piece exceed the content's bytes by two for every pair that is cut. */
  lemma {:induction false} BytesAcrossPieces(content: Text)
    ensures TotalBytes(Pieces(content)) == ByteLength(content) + 2 * SplitPairs(Pieces(content))
    decreases |content|
  {
    if content != [] {
      CutProgress(content);
      var cut := CutOf(content);
      var rest := content[cut..];
      BytesAcrossPieces(rest);
      assert content == content[..cut] + rest;
      BytesOfJoin(content[..cut], rest);
      if rest != [] {
        CutProgress(rest);
        assert Pieces(content)[1] == rest[..CutOf(rest)];
        assert Pieces(content)[1][0] == rest[0];
      }
      assert Pieces(content)[1..] == Pieces(rest);
    }
  }

  /** The pieces' bytes add up to the content's bytes exactly when no cut falls inside a pair. */
  lemma BytesAddUpIff(content: Text)
    ensures TotalBytes(Pieces(content)) == ByteLength(content) <==> SplitPairs(Pieces(content)) == 0
  {
    BytesAcrossPieces(content);
  }

  // ----- which cuts fall inside a pair -----

  lemma PrefixStep(t: Text, e: nat)
    requires e < |t|
    ensures ByteLength(t[..e + 1]) == ByteLength(t[..e]) + if PairAt(t, e - 1) then 1 else UnitBytes(t[e])
  {
    assert t[..e + 1] == t[..e] + [t[e]];
    assert [t[e]][1..] == [];
    BytesOfJoin(t[..e], [t[e]]);
  }

  lemma {:induction false} PrefixGrows(t: Text, i: nat, j: nat)
    requires i <= j <= |t|
    ensures ByteLength(t[..i]) + (j - i) <= ByteLength(t[..j])
    decreases j - i
  {
    if i < j {
      PrefixGrows(t, i, j - 1);
      PrefixStep(t, j - 1);
    }
  }

  /** A cut falls inside a pair exactly when the units before that pair take 8,189 bytes: the pair
      no longer fits, but its lone first half, encoded as a replacement character, does. */
  lemma CutSplitsIff(rest: Text, j: nat)
    requires PairAt(rest, j)
    ensures CutOf(rest) == j + 1 <==> ByteLength(rest[..j]) == CHUNK_BYTES - 3
  {
    var cut := CutOf(rest);
    CutProgress(rest);
    PrefixStep(rest, j);
    PrefixStep(rest, j + 1);
    assert rest[..0] == [];
    PrefixGrows(rest, 0, j);
    if ByteLength(rest[..j]) == CHUNK_BYTES - 3 {
      if j + 2 <= cut { PrefixGrows(rest, j + 2, cut); }
    }
  }

  lemma {:induction false} AsciiBytes(t: Text)
    requires forall i :: 0 <= i < |t| ==> t[i] < 0x80
    ensures ByteLength(t) == |t|
  {
    if t != [] { AsciiBytes(t[1..]); }
  }

  /** 8,189 ASCII units and then one supplementary character: the content has 8,193 bytes, its pieces 8,195. */
  lemma PairAtTheLimitIsCut(content: Text)
    requires |content| == 8_191 && (forall i :: 0 <= i < 8_189 ==> content[i] == 0x61)
    requires content[8_189] == 0xD83D && content[8_190] == 0xDE00
    ensures ByteLength(content) == 8_193 && TotalBytes(Pieces(content)) == 8_195
  {
    AsciiBytes(content[..8_189]);
    PrefixStep(content, 8_189);
    PrefixStep(content, 8_190);
    assert content[..8_191] == content;
    CutSplitsIff(content, 8_189);
    var rest := content[8_190..];
    CutProgress(rest);
    assert rest[..1] == rest && rest[1..] == [];
    assert Pieces(rest) == [rest];
    assert Pieces(content) == [content[..8_190], rest];
    assert Pieces(content)[1..] == [rest];
    BytesAcrossPieces(content);
  }

  // ----- how many pieces there are -----

  /** A piece that another one follows has at least 8,190 bytes, and two more if the cut falls inside a pair. */
  lemma FullPiece(piece: Text, next: Text)
    requires CannotGrow(piece, next)
    ensures ByteLength(piece) >= CHUNK_BYTES - 2 + if SplitsPair(piece, next) then 2 else 0
    ensures ByteLength(piece + next) > CHUNK_BYTES
  {
    var u := [next[0]];
    assert u[1..] == [] && piece[..0] == [] && piece[..|piece|] == piece;
    PrefixGrows(piece, 0, |piece|);
    BytesOfJoin(piece, u);
    var both := piece + next;
    assert both[..|piece|] == piece && both[..|piece| + 1] == piece + u && both[..|both|] == both;
    PrefixGrows(both, |piece|, |both|);
    PrefixGrows(both, |piece| + 1, |both|);
  }

  /** Two or more pieces need three bytes more than 8,190 for each but the last. */
  lemma {:induction false} PiecesTake(content: Text)
    ensures |Pieces(content)| >= 2 ==> ByteLength(content) >= 8_190 * (|Pieces(content)| - 1) + 3
    decreases |content|
  {
    if content != [] {
      CutProgress(content);
      var piece, rest := content[..CutOf(content)], content[CutOf(content)..];
      assert content == piece + rest;
      if rest != [] {
        CutProgress(rest);
        PiecesFit(content);
        assert Pieces(content)[0] == piece && Pieces(content)[1] == Pieces(rest)[0] == rest[..CutOf(rest)];
        assert CannotGrow(piece, rest);
        FullPiece(piece, rest);
        BytesOfJoin(piece, rest);
        PiecesTake(rest);
      }
    }
  }

  /** At most 65,522 bytes make at most eight pieces. */
  lemma EightPieces(content: Text)
    requires ByteLength(content) <= 65_522
    ensures |Pieces(content)| <= 8
  {
    PiecesTake(content);
  }

  /** Units that take three bytes each. */
  predicate Wide(t: Text) {
    forall i :: 0 <= i < |t| ==> t[i] >= 0x800 && !IsHalf(t[i])
  }

  lemma {:induction false} WideBytes(t: Text)
    requires Wide(t)
    ensures ByteLength(t) == 3 * |t| && Scalar(t) == t
  {
    if t != [] { WideBytes(t[1..]); }
  }

  lemma {:induction false} WideFit(t: Text, end: nat)
    requires Wide(t) && 2_730 <= end <= |t|
    ensures FitFrom(t, end) == 2_730
  {
    WideBytes(t[..end]);
    if end > 2_730 { WideFit(t, end - 1); }
  }

  /** Such a text is cut every 2,730 units. */
  lemma {:induction false} WidePieces(t: Text)
    requires Wide(t)
    ensures |Pieces(t)| == (|t| + 2_729) / 2_730
    decreases |t|
  {
    if t != [] {
      CutProgress(t);
      var end := if |t| < CHUNK_BYTES then |t| else CHUNK_BYTES;
      WideBytes(t[..end]);
      if end > 2_730 { WideFit(t, end); }
      assert CutOf(t) == if |t| < 2_730 then |t| else 2_730;
      WidePieces(t[CutOf(t)..]);
    }
  }

  lemma {:induction false} PlainPieces(t: Text)
    requires forall i :: 0 <= i < |t| ==> !IsHalf(t[i]) && t[i] != MARK
    ensures SplitPairs(Pieces(t)) == 0 && Marks(Pieces(t)) == 0
    decreases |t|
  {
    if t != [] {
      CutProgress(t);
      var piece, rest := t[..CutOf(t)], t[CutOf(t)..];
      PlainPieces(rest);
      assert Pieces(t)[0] == piece && Pieces(t)[1..] == Pieces(rest);
      assert piece[0] == t[0] && piece[|piece| - 1] == t[|piece| - 1];
    }
  }

  /** 21,841 to 21,845 characters of three bytes other than a mark, such as U+4E00: the output is within the stream
      limit, counted alike on both sides, and makes nine pieces. */
  lemma NinthPiece(t: Text)
    requires Wide(t) && 21_841 <= |t| <= 21_845 && forall i :: 0 <= i < |t| ==> t[i] != MARK
    ensures Decode(Encode(t)) == Some(t) && 65_523 <= |Encode(t)| <= 65_535
    ensures Balanced(Encode(t)) && |Pieces(t)| == 9
  {
    hide Pieces, SplitPairs, Marks, ByteLength, Scalar;
    WideBytes(t);
    DecodeEncode(t);
    MarkEncoded(t);
    WidePieces(t);
    PlainPieces(t);
  }

  // ----- what the kernel counts -----

  /** The chunks as the kernel decodes them, each without its byte order mark. */
  function Seen(pieces: seq<Text>): seq<Text> {
    seq(|pieces|, k requires 0 <= k < |pieces| => WithoutMark(Scalar(pieces[k])))
  }

  function Marks(pieces: seq<Text>): nat {
    if pieces == [] then 0 else (if StartsWithMark(pieces[0]) then 1 else 0) + Marks(pieces[1..])
  }

  lemma {:induction false} WholeEnd(t: Text)
    ensures t != [] ==> Scalar(t) != [] && !IsHighSurrogate(Scalar(t)[|Scalar(t)| - 1])
    decreases |t|
  {
    if t != [] { WholeEnd(if PairAt(t, 0) then t[2..] else t[1..]); }
  }

  /** A decoded chunk has the bytes of the chunk, less three for its mark, and does not end inside a pair. */
  lemma SeenPiece(t: Text)
    ensures var seen := WithoutMark(Scalar(t));
            && ByteLength(seen) + (if StartsWithMark(t) then 3 else 0) == ByteLength(t)
            && (seen != [] ==> !IsHighSurrogate(seen[|seen| - 1]))
  {
    WholeEnd(t);
    DecodeAllEncode(t);
    EncodeDecodeAll(Encode(t));
    DecodeEncode(t);
  }

  lemma {:induction false} SeenBytes(pieces: seq<Text>)
    ensures ByteLength(Joined(Seen(pieces))) + 3 * Marks(pieces) == TotalBytes(pieces)
  {
    if pieces != [] {
      var first, rest := WithoutMark(Scalar(pieces[0])), Seen(pieces[1..]);
      SeenBytes(pieces[1..]);
      assert Seen(pieces)[0] == first && Seen(pieces)[1..] == rest;
      SeenPiece(pieces[0]);
      BytesOfJoin(first, Joined(rest));
    }
  }

  /** Every pair that is cut adds two bytes to the kernel's count, every mark that is dropped takes three away. */
  predicate Balanced(raw: seq<Byte>)
    requires Decode(raw).Some?
  {
    var pieces := Pieces(Decode(raw).value);
    2 * SplitPairs(pieces) == 3 * (Marks(pieces) + if HasMark(raw) then 1 else 0)
  }

  /** The kernel counts the bytes that were received exactly when cut pairs and dropped marks balance; without
      any mark, exactly when no pair is cut. */
  lemma CountsAgreeIff(raw: seq<Byte>)
    requires Decode(raw).Some?
    ensures var pieces := Pieces(Decode(raw).value);
            && (ByteLength(Joined(Seen(pieces))) == |raw| <==> Balanced(raw))
            && (!HasMark(raw) && Marks(pieces) == 0 ==> (Balanced(raw) <==> SplitPairs(pieces) == 0))
  {
    DecodedBytes(raw);
    SeenBytes(Pieces(Decode(raw).value));
    BytesAcrossPieces(Decode(raw).value);
  }

  lemma ShortPiece(t: Text)
    requires t != [] && |t| <= CHUNK_BYTES && ByteLength(t) <= CHUNK_BYTES
    ensures Pieces(t) == [t]
  {
    assert t[..|t|] == t && t[|t|..] == [];
  }

  /** A mark followed by "hi": five bytes are reported, two are counted. */
  lemma LeadingMark()
    ensures var raw := MARK_BYTES + [0x68, 0x69];
            && Decode(raw) == Some([0x68, 0x69]) && Pieces([0x68, 0x69]) == [[0x68, 0x69]]
            && |raw| == 5 && ByteLength([0x68, 0x69]) == 2 && !Balanced(raw)
  {
    var hi: Text := [0x68, 0x69];
    var raw := MARK_BYTES + [0x68, 0x69];
    assert hi[1..] == [0x69] && hi[1..][1..] == [];
    assert raw[3..] == Encode(hi) by { assert raw[3..] == [0x68, 0x69] == EncodeUnit(hi[0]) + EncodeUnit(hi[1..][0]); }
    DecodeAllEncode(hi);
    WholeScalar(hi);
    ShortPiece(hi);
    assert Pieces(hi)[1..] == [];
    assert Marks(Pieces(hi)) == 0;
  }

  lemma {:induction false} WholeScalar(t: Text)
    requires forall i :: 0 <= i < |t| ==> !IsHalf(t[i])
    ensures Scalar(t) == t
  {
    if t != [] { WholeScalar(t[1..]); }
  }

  /** U+FEFF right after 8,192 ASCII characters starts the second chunk: no pair is cut, and the counts differ. */
  lemma MarkAtTheLimit(content: Text)
    requires |content| == 8_194 && (forall i :: 0 <= i < 8_192 ==> content[i] == 0x61)
    requires content[8_192] == MARK && content[8_193] == 0x62
    ensures Decode(Encode(content)) == Some(content) && !HasMark(Encode(content))
    ensures SplitPairs(Pieces(content)) == 0 && Marks(Pieces(content)) == 1 && !Balanced(Encode(content))
  {
    WholeScalar(content);
    DecodeEncode(content);
    MarkEncoded(content);
    var head, rest := content[..8_192], content[8_192..];
    AsciiBytes(head);
    assert rest == [MARK, 0x62] && rest[1..] == [0x62] && [0x62 as CodeUnit][1..] == [];
    assert ByteLength([0x62]) == 1 && ByteLength(rest) == 4;
    ShortPiece(rest);
    assert CutOf(content) == 8_192;
    assert Pieces(content) == [head] + Pieces(rest) == [head, rest];
    assert Pieces(content)[1..] == [rest] && [rest][1..] == [];
    assert Marks([rest]) == 1 && SplitPairs([rest]) == 0;
  }
}
