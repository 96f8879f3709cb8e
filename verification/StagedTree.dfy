/** The staged copy of a repository and the validator that compares it with its manifest
    (repository-check-snapshot.ts). */
module StagedTree {
  import opened Results

  type Name = string
  type Path = string
  type Digest = nat
  type Bytes = seq<bv8>

  const READ_ONLY := 0x124            // 0o444
  const READ_AND_EXECUTE := 0x16D     // 0o555

  /** What a path names. Modes are the permission bits; an oddity is a link, a socket and the like. */
  datatype Node = File(mode: nat, links: nat, bytes: Bytes) | Directory(mode: nat, entries: seq<Entry>) | Oddity
  datatype Entry = Entry(name: Name, node: Node)

  /** One row of the manifest. */
  datatype Row = Row(path: Path, executable: bool, byteLength: nat, digest: Digest)

  predicate Plain(name: Name) {
    name != "" && forall i :: 0 <= i < |name| ==> name[i] != '/'
  }

  /** A file system directory: plain names, each used once, all the way down. */
  predicate WellFormed(entries: seq<Entry>) {
    && (forall i, j :: 0 <= i < j < |entries| ==> entries[i].name != entries[j].name)
    && forall e :: e in entries ==> WellNamed(e)
  }

  predicate WellNamed(e: Entry) {
    Plain(e.name) && (e.node.Directory? ==> WellFormed(e.node.entries))
  }

  function Joined(prefix: Path, name: Name): Path {
    if prefix == "" then name else prefix + "/" + name
  }

  // ----- the recursive flattening -----

  /** The regular files below a directory, by relative path. */
  function Listing(entries: seq<Entry>, prefix: Path): seq<(Path, Node)>
    decreases entries
  {
    if entries == [] then []
    else Listing(entries[..|entries| - 1], prefix) + Here(entries[|entries| - 1], prefix)
  }

  /** What one entry lists. */
  function Here(e: Entry, prefix: Path): seq<(Path, Node)>
    decreases e
  {
    match e.node
    case File(_, _, _) => [(Joined(prefix, e.name), e.node)]
    case Directory(_, inner) => Listing(inner, Joined(prefix, e.name))
    case Oddity => []
  }

  /** Every directory is read-only (0o555), every file has one name, and there is nothing else. */
  predicate Sealed(entries: seq<Entry>) {
    forall e :: e in entries ==> SealedOne(e)
  }

  predicate SealedOne(e: Entry) {
    match e.node
    case File(_, links, _) => links == 1
    case Directory(mode, inner) => mode == 0x16D && Sealed(inner)
    case Oddity => false
  }

  /** The manifest row that a file at this path would have: 0o555 for an executable, 0o444 for any other file. */
  function RowOf(item: (Path, Node), sha: Bytes -> Digest): Option<Row> {
    match item.1
    case File(mode, _, bytes) =>
      if mode == 0x16D then Some(Row(item.0, true, |bytes|, sha(bytes)))
      else if mode == 0x124 then Some(Row(item.0, false, |bytes|, sha(bytes)))
      else None
    case _ => None
  }

  /** `new Map(files.map(...))`: a later row of the same path replaces an earlier one. */
  function Expected(files: seq<Row>): map<Path, Row> {
    if files == [] then map[]
    else Expected(files[..|files| - 1])[files[|files| - 1].path := files[|files| - 1]]
  }

  /** The row that counts for a path. */
  predicate LastRow(files: seq<Row>, k: nat, p: Path) {
    k < |files| && files[k].path == p && forall l :: k < l < |files| ==> files[l].path != p
  }

  /** The map holds, for exactly the paths of the manifest, the last row of each. */
  lemma {:induction false} ExpectedIsLast(files: seq<Row>, p: Path)
    ensures p in Expected(files) <==> exists k :: 0 <= k < |files| && files[k].path == p
    ensures forall k: nat :: LastRow(files, k, p) ==> p in Expected(files) && Expected(files)[p] == files[k]
  {
    if files != [] {
      var front, n := files[..|files| - 1], |files| - 1;
      ExpectedIsLast(front, p);
      forall k: nat | LastRow(files, k, p) ensures p in Expected(files) && Expected(files)[p] == files[k] {
        if k < n { assert LastRow(front, k, p) && files[n].path != p; }
      }
      if exists k :: 0 <= k < |files| && files[k].path == p {
        var k :| 0 <= k < |files| && files[k].path == p;
        if k < n { assert front[k].path == p; }
      }
    }
  }

  predicate Keyed(expected: map<Path, Row>) {
    forall p :: p in expected ==> expected[p].path == p
  }

  lemma {:induction false} ExpectedKeyed(files: seq<Row>)
    ensures Keyed(Expected(files))
  {
    if files != [] { ExpectedKeyed(files[..|files| - 1]); }
  }

  predicate AsExpected(items: seq<(Path, Node)>, expected: map<Path, Row>, sha: Bytes -> Digest) {
    forall k :: 0 <= k < |items| ==> items[k].0 in expected && RowOf(items[k], sha) == Some(expected[items[k].0])
  }

  function Paths(items: seq<(Path, Node)>): set<Path> {
    set k | 0 <= k < |items| :: items[k].0
  }

  /** The tree's files are the manifest's, as maps from path to mode, length and digest. */
  predicate SameFiles(entries: seq<Entry>, expected: map<Path, Row>, sha: Bytes -> Digest) {
    AsExpected(Listing(entries, ""), expected, sha) && Paths(Listing(entries, "")) == expected.Keys
  }

  // ----- different files have different paths -----

  /** The path is that of the named entry or lies below it. */
  predicate Below(prefix: Path, name: Name, path: Path) {
    var top := Joined(prefix, name);
    |top| <= |path| && path[..|top|] == top && (|path| == |top| || path[|top|] == '/')
  }

  /** Of two names above one path the shorter is the other's beginning, up to a separator. */
  lemma BelowBoth(prefix: Path, a: Name, b: Name, path: Path)
    requires Below(prefix, a, path) && Below(prefix, b, path) && |a| <= |b| && (prefix == "" ==> a != "")
    ensures a == b[..|a|] && (|a| < |b| ==> b[|a|] == '/')
  {
    var s, t := Joined(prefix, a), Joined(prefix, b);
    var from := |s| - |a|;
    assert forall i :: 0 <= i < |a| ==> path[..|s|][from + i] == a[i];
    assert forall i :: 0 <= i < |b| ==> path[..|t|][from + i] == b[i];
    assert forall i :: 0 <= i < |a| ==> path[from + i] == a[i];
    assert forall i :: 0 <= i < |b| ==> path[from + i] == b[i];
  }

  lemma BelowOne(prefix: Path, a: Name, b: Name, path: Path)
    requires Plain(a) && Plain(b) && Below(prefix, a, path) && Below(prefix, b, path) && |a| <= |b|
    ensures a == b
  {
    BelowBoth(prefix, a, b, path);
  }

  lemma BelowDeeper(prefix: Path, name: Name, inner: Name, path: Path)
    requires name != "" && Below(Joined(prefix, name), inner, path)
    ensures Below(prefix, name, path)
  {
    var top, sub := Joined(prefix, name), Joined(Joined(prefix, name), inner);
    assert sub[..|top|] == top && sub[|top|] == '/';
    assert path[..|top|] == path[..|sub|][..|top|];
    assert path[|top|] == path[..|sub|][|top|];
  }

  predicate BelowSome(entries: seq<Entry>, prefix: Path, path: Path) {
    exists i :: 0 <= i < |entries| && Below(prefix, entries[i].name, path)
  }

  lemma {:induction false} ListingBelow(entries: seq<Entry>, prefix: Path, k: nat)
    requires WellFormed(entries) && k < |Listing(entries, prefix)|
    ensures BelowSome(entries, prefix, Listing(entries, prefix)[k].0) && Listing(entries, prefix)[k].1.File?
    decreases entries
  {
    var front, last := entries[..|entries| - 1], entries[|entries| - 1];
    var before := Listing(front, prefix);
    if k < |before| {
      ListingBelow(front, prefix, k);
      var i :| 0 <= i < |front| && Below(prefix, front[i].name, before[k].0);
      assert Below(prefix, entries[i].name, before[k].0);
    } else {
      HereBelow(last, prefix, k - |before|);
      assert Below(prefix, entries[|entries| - 1].name, Here(last, prefix)[k - |before|].0);
    }
  }

  lemma {:induction false} HereBelow(e: Entry, prefix: Path, k: nat)
    requires WellNamed(e) && k < |Here(e, prefix)|
    ensures Below(prefix, e.name, Here(e, prefix)[k].0) && Here(e, prefix)[k].1.File?
    decreases e
  {
    if e.node.Directory? {
      var top, path := Joined(prefix, e.name), Here(e, prefix)[k].0;
      ListingBelow(e.node.entries, top, k);
      var i :| 0 <= i < |e.node.entries| && Below(top, e.node.entries[i].name, path);
      BelowDeeper(prefix, e.name, e.node.entries[i].name, path);
    }
  }

  /** Nothing an entry lists is listed by an earlier entry of the same directory. */
  lemma EntriesApart(entries: seq<Entry>, prefix: Path, k: nat)
    requires WellFormed(entries) && k < |entries|
    ensures Paths(Here(entries[k], prefix)) !! Paths(Listing(entries[..k], prefix))
  {
    hide Below, Here, Listing;
    var here, others := Here(entries[k], prefix), Listing(entries[..k], prefix);
    forall i, j | 0 <= i < |here| && 0 <= j < |others| ensures here[i].0 != others[j].0 {
      HereBelow(entries[k], prefix, i);
      ListingBelow(entries[..k], prefix, j);
      var l :| 0 <= l < k && Below(prefix, entries[..k][l].name, others[j].0);
      assert WellNamed(entries[k]) && WellNamed(entries[l]) && entries[..k][l] == entries[l];
      if here[i].0 == others[j].0 {
        if |entries[k].name| <= |entries[l].name| {
          BelowOne(prefix, entries[k].name, entries[l].name, here[i].0);
        } else {
          BelowOne(prefix, entries[l].name, entries[k].name, here[i].0);
        }
      }
    }
  }

  // ----- the validator -----

  lemma ListingStep(entries: seq<Entry>, prefix: Path, k: nat, expected: map<Path, Row>, sha: Bytes -> Digest)
    requires k < |entries|
    ensures var before, here := Listing(entries[..k], prefix), Here(entries[k], prefix);
            && Listing(entries[..k + 1], prefix) == before + here
            && Paths(before + here) == Paths(before) + Paths(here)
            && (AsExpected(before + here, expected, sha) <==> AsExpected(before, expected, sha) && AsExpected(here, expected, sha))
    ensures Sealed(entries[..k + 1]) <==> Sealed(entries[..k]) && SealedOne(entries[k])
  {
    assert entries[..k + 1][..k] == entries[..k];
    PathsOfSum(Listing(entries[..k], prefix), Here(entries[k], prefix));
    ExpectedOfSum(Listing(entries[..k], prefix), Here(entries[k], prefix), expected, sha);
    assert entries[..k + 1] == entries[..k] + [entries[k]];
  }

  lemma PathsOfSum(a: seq<(Path, Node)>, b: seq<(Path, Node)>)
    ensures Paths(a + b) == Paths(a) + Paths(b)
  {
    forall p ensures p in Paths(a + b) <==> p in Paths(a) + Paths(b) {
      if p in Paths(a) {
        var k :| 0 <= k < |a| && a[k].0 == p;
        assert (a + b)[k].0 == p;
      }
      if p in Paths(b) {
        var k :| 0 <= k < |b| && b[k].0 == p;
        assert (a + b)[|a| + k].0 == p;
      }
    }
  }

  lemma ExpectedOfSum(a: seq<(Path, Node)>, b: seq<(Path, Node)>, expected: map<Path, Row>, sha: Bytes -> Digest)
    ensures AsExpected(a + b, expected, sha) <==> AsExpected(a, expected, sha) && AsExpected(b, expected, sha)
  {
    if AsExpected(a + b, expected, sha) {
      assert forall k :: 0 <= k < |a| ==> (a + b)[k] == a[k];
      assert forall k :: 0 <= k < |b| ==> (a + b)[|a| + k] == b[k];
    }
  }

  /** Once a part of a directory fails, the whole does. */
  lemma {:induction false} FailsEarly(entries: seq<Entry>, prefix: Path, k: nat, expected: map<Path, Row>, sha: Bytes -> Digest)
    requires k <= |entries|
    requires Sealed(entries) && AsExpected(Listing(entries, prefix), expected, sha)
    ensures Sealed(entries[..k]) && AsExpected(Listing(entries[..k], prefix), expected, sha)
    decreases |entries| - k
  {
    if k < |entries| {
      FailsEarly(entries, prefix, k + 1, expected, sha);
      ListingStep(entries, prefix, k, expected, sha);
    } else {
      assert entries[..k] == entries;
    }
  }

  /** One turn of the loop in `visit`. */
  method VisitEntry(e: Entry, prefix: Path, expected: map<Path, Row>, sha: Bytes -> Digest, found: set<Path>)
    returns (ok: bool, seen: set<Path>)
    requires WellNamed(e) && Keyed(expected) && Paths(Here(e, prefix)) !! found
    ensures ok <==> SealedOne(e) && AsExpected(Here(e, prefix), expected, sha)
    ensures ok ==> seen == found + Paths(Here(e, prefix))
    decreases e
  {
    ok, seen := false, found;
    match e.node {
      case Oddity =>
      case Directory(mode, inner) =>
        if mode == READ_AND_EXECUTE { ok, seen := Visit(inner, Joined(prefix, e.name), expected, sha, found); }
      case File(mode, links, bytes) =>
        var path := Joined(prefix, e.name);
        assert Here(e, prefix)[0].0 == path;
        if links == 1 && path in expected && path !in found
           && mode == (if expected[path].executable then READ_AND_EXECUTE else READ_ONLY)
           && |bytes| == expected[path].byteLength && sha(bytes) == expected[path].digest {
          ok, seen := true, found + {path};
        }
    }
  }

  /** `visit`: false at the first mismatch; `found` collects the files seen. */
  method Visit(entries: seq<Entry>, prefix: Path, expected: map<Path, Row>, sha: Bytes -> Digest, found: set<Path>)
    returns (ok: bool, seen: set<Path>)
    requires WellFormed(entries) && Keyed(expected) && Paths(Listing(entries, prefix)) !! found
    ensures ok <==> Sealed(entries) && AsExpected(Listing(entries, prefix), expected, sha)
    ensures ok ==> seen == found + Paths(Listing(entries, prefix))
    decreases entries
  {
    hide AsExpected, Sealed, SealedOne;
    seen := found;
    NothingListed(prefix, expected, sha);
    assert entries[..0] == [];
    for k := 0 to |entries|
      invariant Sealed(entries[..k]) && AsExpected(Listing(entries[..k], prefix), expected, sha)
      invariant seen == found + Paths(Listing(entries[..k], prefix))
    {
      ListingStep(entries, prefix, k, expected, sha);
      EntriesApart(entries, prefix, k);
      PathsWithin(entries, prefix, k + 1);
      ok, seen := VisitEntry(entries[k], prefix, expected, sha, seen);
      if !ok {
        if Sealed(entries) && AsExpected(Listing(entries, prefix), expected, sha) {
          FailsEarly(entries, prefix, k + 1, expected, sha);
        }
        return;
      }
    }
    assert entries[..|entries|] == entries;
    ok := true;
  }

  lemma NothingListed(prefix: Path, expected: map<Path, Row>, sha: Bytes -> Digest)
    ensures Sealed([]) && AsExpected(Listing([], prefix), expected, sha) && Paths(Listing([], prefix)) == {}
  {
  }

  lemma {:induction false} PathsWithin(entries: seq<Entry>, prefix: Path, k: nat)
    requires k <= |entries|
    ensures Paths(Listing(entries[..k], prefix)) <= Paths(Listing(entries, prefix))
    decreases |entries| - k
  {
    if k < |entries| {
      PathsWithin(entries, prefix, k + 1);
      assert entries[..k + 1][..k] == entries[..k];
      PathsOfSum(Listing(entries[..k], prefix), Here(entries[k], prefix));
    } else {
      assert entries[..k] == entries;
    }
  }

  /** validateStagedDirectory: a staged directory is accepted exactly when it is read-only throughout, holds no
      link, and its files are the manifest's. */
  method ValidateStagedDirectory(root: Node, files: seq<Row>, sha: Bytes -> Digest) returns (valid: bool)
    requires root.Directory? ==> WellFormed(root.entries)
    ensures valid <==> root.Directory? && root.mode == 0x16D && Sealed(root.entries)
                       && SameFiles(root.entries, Expected(files), sha)
  {
    hide Listing, Sealed;
    if !root.Directory? || root.mode != READ_AND_EXECUTE { return false; }
    var expected := Expected(files);
    ExpectedKeyed(files);
    var fits, found := Visit(root.entries, "", expected, sha, {});
    if fits {
      ghost var paths := Paths(Listing(root.entries, ""));
      assert paths <= expected.Keys;
      if |paths| == |expected| { SameSize(paths, expected.Keys); }
    }
    valid := fits && |found| == |expected|;
  }

  lemma SameSize(a: set<Path>, b: set<Path>)
    requires a <= b && |a| == |b|
    ensures a == b
  {
    assert |b - a| == 0;
  }
}
