/** The text of a patch (git-review.ts). */
module PatchPrinting {
  import opened Utf16
  import opened Lines
  import opened PatchHunks

  function Decimal(n: nat): (t: Text)
    ensures t != []
  {
    var digit := [(0x30 + n % 10) as CodeUnit];
    if n < 10 then digit else Decimal(n / 10) + digit
  }

  function PatchLine(line: Text, prefix: CodeUnit): Text {
    if EndsInNewline(line) then [prefix] + line
    else [prefix] + line + [NEWLINE] + Ascii("\\ No newline at end of file") + [NEWLINE]
  }

  function PatchLines(lines: seq<Text>, prefix: CodeUnit): Text {
    if lines == [] then [] else PatchLine(lines[0], prefix) + PatchLines(lines[1..], prefix)
  }

  const KEPT: CodeUnit := 0x20
  const REMOVED: CodeUnit := 0x2D
  const ADDED: CodeUnit := 0x2B

  function HunkHeader(h: Hunk): Text {
    Ascii("@@ -") + Decimal(h.oldStart) + Ascii(",") + Decimal(h.oldCount)
    + Ascii(" +") + Decimal(h.newStart) + Ascii(",") + Decimal(h.newCount) + Ascii(" @@") + [NEWLINE]
  }

  function HunkText(h: Hunk): Text {
    HunkHeader(h) + PatchLines(h.contextBefore, KEPT) + PatchLines(h.removed, REMOVED)
    + PatchLines(h.added, ADDED) + PatchLines(h.contextAfter, KEPT)
  }

  function HunksText(hunks: seq<Hunk>): Text {
    if hunks == [] then [] else HunkText(hunks[0]) + HunksText(hunks[1..])
  }

  function EditText(path: Text, hunks: seq<Hunk>): Text {
    Ascii("diff --eden a/") + path + Ascii(" b/") + path + [NEWLINE]
    + Ascii("--- a/") + path + [NEWLINE] + Ascii("+++ b/") + path + [NEWLINE] + HunksText(hunks)
  }

  function NewFileText(path: Text, lines: seq<Text>): Text {
    Ascii("diff --git a/") + path + Ascii(" b/") + path + [NEWLINE]
    + Ascii("new file mode 100644") + [NEWLINE] + Ascii("--- /dev/null") + [NEWLINE]
    + Ascii("+++ b/") + path + [NEWLINE]
    + Ascii("@@ -0,0 +1,") + Decimal(|lines|) + Ascii(" @@") + [NEWLINE] + PatchLines(lines, ADDED)
  }
}
