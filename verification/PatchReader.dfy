/** A reader of patch text that knows the format and nothing of the code that prints it: file lines, hunk headers by value,
    and lines marked with a space, a minus or a plus (POSIX.1-2017, diff -u output). */
module PatchReader {
  import opened Utf16
  import opened Results
  import opened Lines
  import opened PatchHunks

  const NO_NEWLINE: Text := [
    0x5C, 0x20, 0x4E, 0x6F, 0x20, 0x6E, 0x65, 0x77, 0x6C, 0x69, 0x6E, 0x65, 0x20, 0x61, 0x74, 0x20, 0x65, 0x6E, 0x64,
    0x20, 0x6F, 0x66, 0x20, 0x66, 0x69, 0x6C, 0x65, 0x0A]

  /** The rest of the text behind this literal. */
  function Expect(t: Text, literal: Text): Option<Text> {
    if literal <= t then Some(t[|literal|..]) else None
  }

  function Digits(t: Text, value: nat): (r: (nat, Text))
    ensures |r.1| <= |t|
    decreases |t|
  {
    if t != [] && 0x30 <= t[0] <= 0x39 then Digits(t[1..], value * 10 + (t[0] as int - 0x30)) else (value, t)
  }

  /** A decimal number and the literal behind it. */
  function Number(t: Text, literal: Text): Option<(nat, Text)> {
    var (value, rest) := Digits(t, 0);
    if |rest| == |t| then None
    else
      var after := Expect(rest, literal);
      if after.None? then None else Some((value, after.value))
  }

  /** Old and new lines up to the next hunk, and what follows. */
  datatype Body = Body(olds: seq<Text>, news: seq<Text>, rest: Text)

  /** The line behind a mark, without its newline if the marker says so, and what follows it. */
  function MarkedLine(t: Text): (r: Option<(Text, Text)>)
    requires t != []
    ensures r.Some? ==> |r.value.1| < |t|
  {
    var n := LineEnd(t);
    var line, rest := t[1..n], t[n..];
    if !(NO_NEWLINE <= rest) then Some((line, rest))
    else if line == [] then None
    else Some((line[..|line| - 1], rest[|NO_NEWLINE|..]))
  }

  /** A kept, an old or a new line before the others. */
  function Before(mark: CodeUnit, line: Text, more: Body): Option<Body> {
    if mark == 0x20 then Some(Body([line] + more.olds, [line] + more.news, more.rest))
    else if mark == 0x2D then Some(Body([line] + more.olds, more.news, more.rest))
    else if mark == 0x2B then Some(Body(more.olds, [line] + more.news, more.rest))
    else None
  }

  function ReadBody(t: Text): (r: Option<Body>)
    ensures r.Some? ==> |r.value.rest| <= |t|
    decreases |t|
  {
    if t == [] || t[0] == 0x40 then Some(Body([], [], t))
    else
      var line := MarkedLine(t);
      if line.None? then None
      else
        var more := ReadBody(line.value.1);
        if more.None? then None else Before(t[0], line.value.0, more.value)
  }

  /** `@@ -a,b +c,d @@`: a range without old lines names the line before it, so its place is one further. */
  function ReadHunks(t: Text): Option<seq<Hunk>>
    decreases |t|
  {
    if t == [] then Some([])
    else
      var a := Expect(t, [0x40, 0x40, 0x20, 0x2D]);
      if a.None? then None
      else
        var b := Number(a.value, [0x2C]);
        if b.None? then None
        else
          var c := Number(b.value.1, [0x20, 0x2B]);
          if c.None? then None
          else
            var d := Number(c.value.1, [0x2C]);
            if d.None? then None
            else
              var e := Number(d.value.1, [0x20, 0x40, 0x40, 0x0A]);
              if e.None? then None
              else
                var body := ReadBody(e.value.1);
                if body.None? then None
                else
                  var more := ReadHunks(body.value.rest);
                  if more.None? || |body.value.olds| != c.value.0 || |body.value.news| != e.value.0 then None
                  else
                    var at := if c.value.0 == 0 then b.value.0 + 1 else b.value.0;
                    Some([Hunk(at, c.value.0, d.value.0, e.value.0, [], body.value.olds, body.value.news, [])] + more.value)
  }

  /** The file a patch is for, if there was one before, the file it makes, and its hunks. */
  datatype Patch = Patch(source: Option<Text>, target: Text, hunks: seq<Hunk>)

  /** The lines up to the first that starts with `--- `. */
  function SkipHead(t: Text): (r: Option<Text>)
    ensures r.Some? ==> [0x2D, 0x2D, 0x2D, 0x20] <= r.value
    decreases |t|
  {
    if t == [] then None
    else if [0x2D, 0x2D, 0x2D, 0x20] <= t then Some(t)
    else SkipHead(t[LineEnd(t)..])
  }

  /** A line without its newline, if it has one. */
  function Chomp(line: Text): Text {
    if EndsInNewline(line) then line[..|line| - 1] else line
  }

  /** Those lines. */
  function HeadLines(t: Text): seq<Text>
    decreases |t|
  {
    if t == [] || [0x2D, 0x2D, 0x2D, 0x20] <= t then [] else [Chomp(t[..LineEnd(t)])] + HeadLines(t[LineEnd(t)..])
  }

  /** `diff --eden a/<path> b/<path>`. */
  function EditHead(path: Text): seq<Text> {
    [[0x64, 0x69, 0x66, 0x66, 0x20, 0x2D, 0x2D, 0x65, 0x64, 0x65, 0x6E, 0x20, 0x61, 0x2F] + path + [0x20, 0x62, 0x2F] + path]
  }

  /** `diff --git a/<path> b/<path>` and `new file mode 100644`. */
  function NewFileHead(path: Text): seq<Text> {
    [[0x64, 0x69, 0x66, 0x66, 0x20, 0x2D, 0x2D, 0x67, 0x69, 0x74, 0x20, 0x61, 0x2F] + path + [0x20, 0x62, 0x2F] + path,
     [0x6E, 0x65, 0x77, 0x20, 0x66, 0x69, 0x6C, 0x65, 0x20, 0x6D, 0x6F, 0x64, 0x65, 0x20, 0x31, 0x30, 0x30, 0x36, 0x34, 0x34]]
  }

  /** From `--- ` on. */
  function ReadFiles(t: Text): Option<Patch>
    requires |t| > 4
  {
    var n := LineEnd(t[4..]);
    var name, rest := Chomp(t[4..][..n]), t[4..][n..];
    var source := Expect(name, [0x61, 0x2F]);
    if rest == [] || (source.None? && name != [0x2F, 0x64, 0x65, 0x76, 0x2F, 0x6E, 0x75, 0x6C, 0x6C]) then None
    else
      var m := LineEnd(rest);
      var target := Expect(Chomp(rest[..m]), [0x2B, 0x2B, 0x2B, 0x20, 0x62, 0x2F]);
      var hunks := ReadHunks(rest[m..]);
      if target.None? || hunks.None? then None else Some(Patch(source, target.value, hunks.value))
  }

  function ReadPatch(t: Text): Option<Patch> {
    var head := SkipHead(t);
    if head.None? || |head.value| == 4 then None else ReadFiles(head.value)
  }

  /** What the patch makes of these lines. */
  function Applied(patch: Patch, base: seq<Text>): Option<seq<Text>> {
    Apply(base, patch.hunks, 0, 0)
  }
}
