/** The text of a strict unified diff (a subset of the "Diff -u or -U Output
    Format" of the POSIX diff utility): reading it and printing it. */
module PatchText {
  import opened Results
  import opened Patch
  import Decimal

  /** What the workspace makes of a path: its normal form, when it is contained,
      and whether tools may touch it. */
  datatype Policy = Policy(normalize: string -> Option<string>, admit: string -> Option<string>)

  datatype Parsed<+T> = Parsed(value: T, position: nat)

  // ---- File headers ----

  function TrimNewlines(s: string): string {
    if s != [] && s[|s| - 1] == '\n' then TrimNewlines(s[..|s| - 1]) else s
  }

  function UntilTab(s: string): string {
    if s == [] || s[0] == '\t' then [] else [s[0]] + UntilTab(s[1..])
  }

  function Drop(s: string, n: nat): string {
    if n <= |s| then s[n..] else []
  }

  const NULL_PATH := "/dev/null"

  /** A header path: absent for `/dev/null`, refused without its prefix. */
  function HeaderPath(policy: Policy, text: string, prefix: string): Result<Option<string>> {
    var value := UntilTab(TrimNewlines(text));
    if value == NULL_PATH then Ok(None) else
    if !(prefix <= value) then Refused("PATCH_FORMAT") else
    var path := policy.normalize(Drop(value, 2));
    if path.None? then Refused("WORKSPACE_PATH") else Ok(path)
  }

  predicate IsFileHeader(line: string) {
    "--- " <= line
  }

  /** The one path a section is about, when the tools may touch it. */
  function SectionPath(policy: Policy, s: Section): Option<string> {
    match s.newPath
    case Some(p) => policy.admit(p)
    case None => if s.oldPath.Some? then policy.admit(s.oldPath.value) else None
  }

  predicate PathsAgree(policy: Policy, oldPath: Option<string>, newPath: Option<string>) {
    && (oldPath.Some? && newPath.Some? ==> oldPath == newPath)
    && SectionPath(policy, Section(oldPath, newPath, [])).Some?
  }

  // ---- Hunk headers ----

  datatype Numbered = Numbered(value: nat, rest: string)

  function DigitRun(s: string): (n: nat)
    ensures n <= |s| && forall i :: 0 <= i < n ==> Decimal.IsDigit(s[i])
    ensures n < |s| ==> !Decimal.IsDigit(s[n])
  {
    if s == [] || !Decimal.IsDigit(s[0]) then 0 else 1 + DigitRun(s[1..])
  }

  function ReadNumeral(s: string): Option<Numbered> {
    var n := DigitRun(s);
    if n == 0 then None else Some(Numbered(Decimal.Value(s[..n]), s[n..]))
  }

  /** A line count; a missing one is 1. */
  function ReadCount(s: string): Option<Numbered> {
    if s != [] && s[0] == ',' then ReadNumeral(s[1..]) else Some(Numbered(1, s))
  }

  datatype Range = Range(start: nat, count: nat, rest: string)

  function ReadRange(s: string): Option<Range> {
    var start := ReadNumeral(s);
    if start.None? then None else
    var count := ReadCount(start.value.rest);
    if count.None? then None else Some(Range(start.value.value, count.value.value, count.value.rest))
  }

  /** The end of a hunk header: an optional heading and an optional newline. */
  predicate IsHeaderEnd(s: string) {
    var heading := if s != [] && s[|s| - 1] == '\n' then s[..|s| - 1] else s;
    heading == [] || (heading[0] == ' ' && '\n' !in heading)
  }

  datatype HunkHeader = HunkHeader(oldStart: nat, oldCount: nat, newCount: nat)

  function ReadHunkHeader(line: string): Option<HunkHeader> {
    if !("@@ -" <= line) then None else
    var before := ReadRange(line[4..]);
    if before.None? || !(" +" <= before.value.rest) then None else
    var after := ReadRange(before.value.rest[2..]);
    if after.None? || !(" @@" <= after.value.rest) || !IsHeaderEnd(after.value.rest[3..]) then None else
    Some(HunkHeader(before.value.start, before.value.count, after.value.count))
  }

  // ---- Hunk bodies ----

  function ReadOp(line: string): Option<Op> {
    if line == [] then None
    else if line[0] == ' ' then Some(Keep(line[1..]))
    else if line[0] == '-' then Some(Remove(line[1..]))
    else if line[0] == '+' then Some(Insert(line[1..]))
    else None
  }

  /** A hunk body: lines until both declared counts are used up. */
  function ParseOps(lines: seq<string>, position: nat, oldLeft: nat, newLeft: nat): (r: Option<Parsed<seq<Op>>>)
    ensures r.Some? ==> position <= r.value.position
    decreases oldLeft + newLeft
  {
    if oldLeft == 0 && newLeft == 0 then Some(Parsed([], position)) else
    if position >= |lines| then None else
    var op := ReadOp(lines[position]);
    if op.None? || (!op.value.Insert? && oldLeft == 0) || (!op.value.Remove? && newLeft == 0) then None else
    var rest := ParseOps(lines, position + 1, oldLeft - (if op.value.Insert? then 0 else 1),
                         newLeft - (if op.value.Remove? then 0 else 1));
    if rest.None? then None else Some(Parsed([op.value] + rest.value.value, rest.value.position))
  }

  function ParseHunk(lines: seq<string>, position: nat): (r: Option<Parsed<Hunk>>)
    requires position < |lines|
    ensures r.Some? ==> position < r.value.position
  {
    var header := ReadHunkHeader(lines[position]);
    if header.None? then None else
    var ops := ParseOps(lines, position + 1, header.value.oldCount, header.value.newCount);
    if ops.None? then None else Some(Parsed(Hunk(header.value.oldStart, ops.value.value), ops.value.position))
  }

  function ParseHunks(lines: seq<string>, position: nat): (r: Option<Parsed<seq<Hunk>>>)
    ensures r.Some? ==> position <= r.value.position
    decreases |lines| - position
  {
    if position >= |lines| || IsFileHeader(lines[position]) then Some(Parsed([], position)) else
    var hunk := ParseHunk(lines, position);
    if hunk.None? then None else
    var rest := ParseHunks(lines, hunk.value.position);
    if rest.None? then None else Some(Parsed([hunk.value.value] + rest.value.value, rest.value.position))
  }

  function ParsePaths(policy: Policy, lines: seq<string>, position: nat): Option<Section>
    requires position < |lines|
  {
    if !IsFileHeader(lines[position]) || position + 1 >= |lines| then None else
    var oldPath := HeaderPath(policy, Drop(lines[position], 4), "a/");
    var newPath := HeaderPath(policy, Drop(lines[position + 1], 4), "b/");
    if oldPath.Refused? || newPath.Refused? || !PathsAgree(policy, oldPath.value, newPath.value) then None else
    Some(Section(oldPath.value, newPath.value, []))
  }

  function ParseSection(policy: Policy, lines: seq<string>, position: nat): (r: Option<Parsed<Section>>)
    requires position < |lines|
    ensures r.Some? ==> position < r.value.position
  {
    var paths := ParsePaths(policy, lines, position);
    if paths.None? then None else
    var hunks := ParseHunks(lines, position + 2);
    if hunks.None? || hunks.value.value == [] then None else
    Some(Parsed(paths.value.(hunks := hunks.value.value), hunks.value.position))
  }

  function ParseSections(policy: Policy, lines: seq<string>, position: nat): Option<seq<Section>>
    decreases |lines| - position
  {
    if position >= |lines| then Some([]) else
    var section := ParseSection(policy, lines, position);
    if section.None? then None else
    var rest := ParseSections(policy, lines, section.value.position);
    if rest.None? then None else Some([section.value.value] + rest.value)
  }

  // ---- Printing ----

  function PrintOp(op: Op): string {
    match op
    case Keep(t) => [' '] + t
    case Remove(t) => ['-'] + t
    case Insert(t) => ['+'] + t
  }

  function PrintOps(ops: seq<Op>): (r: seq<string>)
    ensures |r| == |ops| && forall i :: 0 <= i < |ops| ==> r[i] == PrintOp(ops[i])
  {
    seq(|ops|, i requires 0 <= i < |ops| => PrintOp(ops[i]))
  }

  function PrintRange(start: nat, count: nat): string {
    Decimal.Render(start) + ([','] + Decimal.Render(count))
  }

  function PrintHunkHeader(h: Hunk, newStart: nat): string
    requires h.start >= 0
  {
    "@@ -" + (PrintRange(h.start, |Old(h.ops)|) + (" +" + (PrintRange(newStart, |New(h.ops)|) + " @@\n")))
  }

  predicate Startable(hunks: seq<Hunk>) {
    forall h <- hunks :: h.start >= 0
  }

  /** Hunks with the new-side starts `newStart` gives; readers ignore those. */
  function PrintHunks(hunks: seq<Hunk>, newStart: Hunk -> nat): seq<string>
    requires Startable(hunks)
  {
    if hunks == [] then [] else
    [PrintHunkHeader(hunks[0], newStart(hunks[0]))] + PrintOps(hunks[0].ops) + PrintHunks(hunks[1..], newStart)
  }

  function PrintPath(mark: string, prefix: string, path: Option<string>): string {
    mark + ((if path.Some? then prefix + path.value else NULL_PATH) + "\n")
  }

  function PrintSection(s: Section, newStart: Hunk -> nat): seq<string>
    requires Startable(s.hunks)
  {
    [PrintPath("--- ", "a/", s.oldPath), PrintPath("+++ ", "b/", s.newPath)] + PrintHunks(s.hunks, newStart)
  }

  predicate AllStartable(ss: seq<Section>) {
    forall i :: 0 <= i < |ss| ==> Startable(ss[i].hunks)
  }

  function PrintSections(ss: seq<Section>, newStart: Hunk -> nat): seq<string>
    requires AllStartable(ss)
  {
    if ss == [] then [] else PrintSection(ss[0], newStart) + PrintSections(ss[1..], newStart)
  }

  predicate PlainPath(policy: Policy, path: string) {
    policy.normalize(path) == Some(path) && '\t' !in path && '\n' !in path
  }

  /** A section that a diff can be about: its paths are normal, contained and in
      agreement, it has hunks, and their starts are not negative. The text of
      the hunk lines is not restricted. */
  predicate Printable(policy: Policy, s: Section) {
    && (s.oldPath.Some? ==> PlainPath(policy, s.oldPath.value))
    && (s.newPath.Some? ==> PlainPath(policy, s.newPath.value))
    && PathsAgree(policy, s.oldPath, s.newPath)
    && s.hunks != []
  }

  predicate AllPrintable(policy: Policy, ss: seq<Section>) {
    forall i :: 0 <= i < |ss| ==> Printable(policy, ss[i]) && Startable(ss[i].hunks)
  }

  // ---- Printing then reading ----

  lemma {:induction false} UntilTabWhole(s: string)
    requires '\t' !in s
    ensures UntilTab(s) == s
  {
    if s != [] {
      UntilTabWhole(s[1..]);
    }
  }

  lemma HeaderPathPrinted(policy: Policy, mark: string, prefix: string, path: Option<string>)
    requires |mark| == 4 && prefix in {"a/", "b/"}
    requires path.Some? ==> PlainPath(policy, path.value)
    ensures HeaderPath(policy, Drop(PrintPath(mark, prefix, path), 4), prefix) == Ok(path)
  {
    var body := if path.Some? then prefix + path.value else NULL_PATH;
    var text := body + "\n";
    assert Drop(PrintPath(mark, prefix, path), 4) == text;
    assert text[..|text| - 1] == body;
    assert '\n' !in body && '\t' !in body;
    assert TrimNewlines(text) == TrimNewlines(body) == body;
    UntilTabWhole(body);
    if path.Some? {
      assert body[0] != NULL_PATH[0];
      assert Drop(body, 2) == path.value;
    }
  }

  lemma DigitRunOf(s: string, rest: string)
    requires Decimal.IsNumeral(s) && (rest != [] ==> !Decimal.IsDigit(rest[0]))
    ensures DigitRun(s + rest) == |s|
  {
    assert forall i :: 0 <= i < |s| ==> (s + rest)[i] == s[i];
    assert rest != [] ==> (s + rest)[|s|] == rest[0];
  }

  lemma ReadNumeralPrinted(n: nat, rest: string)
    requires rest != [] ==> !Decimal.IsDigit(rest[0])
    ensures ReadNumeral(Decimal.Render(n) + rest) == Some(Numbered(n, rest))
  {
    var s := Decimal.Render(n);
    DigitRunOf(s, rest);
    Decimal.RenderThenValue(n);
    assert (s + rest)[..|s|] == s && (s + rest)[|s|..] == rest;
  }

  lemma ReadRangePrinted(start: nat, count: nat, rest: string)
    requires rest != [] ==> !Decimal.IsDigit(rest[0])
    ensures ReadRange(PrintRange(start, count) + rest) == Some(Range(start, count, rest))
  {
    hide ReadNumeral;
    var tail := [','] + (Decimal.Render(count) + rest);
    assert PrintRange(start, count) + rest == Decimal.Render(start) + tail;
    ReadNumeralPrinted(start, tail);
    ReadNumeralPrinted(count, rest);
    assert tail[1..] == Decimal.Render(count) + rest;
  }

  lemma ReadHunkHeaderPrinted(h: Hunk, newStart: nat)
    requires h.start >= 0
    ensures ReadHunkHeader(PrintHunkHeader(h, newStart))
            == Some(HunkHeader(h.start, |Old(h.ops)|, |New(h.ops)|))
  {
    hide ReadRange, PrintRange, Old, New;
    var line := PrintHunkHeader(h, newStart);
    var end := " @@\n";
    var after := PrintRange(newStart, |New(h.ops)|) + end;
    var middle := " +" + after;
    ReadRangePrinted(h.start, |Old(h.ops)|, middle);
    ReadRangePrinted(newStart, |New(h.ops)|, end);
    assert line[4..] == PrintRange(h.start, |Old(h.ops)|) + middle;
    assert middle[2..] == after;
    assert end[3..] == "\n";
  }

  lemma ReadOpPrinted(op: Op)
    ensures ReadOp(PrintOp(op)) == Some(op)
  {
  }

  lemma ParseOpsStep(lines: seq<string>, position: nat, op: Op, rest: seq<Op>, end: nat)
    requires position < |lines| && ReadOp(lines[position]) == Some(op)
    requires ParseOps(lines, position + 1, |Old(rest)|, |New(rest)|) == Some(Parsed(rest, end))
    ensures ParseOps(lines, position, |Old([op] + rest)|, |New([op] + rest)|) == Some(Parsed([op] + rest, end))
  {
    hide ReadOp;
    assert ([op] + rest)[1..] == rest;
  }

  lemma {:induction false} ParseOpsPrinted(lines: seq<string>, position: nat, ops: seq<Op>)
    requires position + |ops| <= |lines|
    requires forall i :: 0 <= i < |ops| ==> lines[position + i] == PrintOp(ops[i])
    ensures ParseOps(lines, position, |Old(ops)|, |New(ops)|) == Some(Parsed(ops, position + |ops|))
    decreases |ops|
  {
    hide ReadOp, PrintOp;
    hide ParseOps, Old, New;
    if ops == [] {
      NoOps(lines, position);
    } else {
      var rest := ops[1..];
      assert lines[position + 0] == PrintOp(ops[0]);
      ReadOpPrinted(ops[0]);
      forall i | 0 <= i < |rest|
        ensures lines[position + 1 + i] == PrintOp(rest[i])
      {
        assert lines[position + (i + 1)] == PrintOp(ops[i + 1]);
      }
      ParseOpsPrinted(lines, position + 1, rest);
      ParseOpsStep(lines, position, ops[0], rest, position + |ops|);
      assert [ops[0]] + rest == ops;
    }
  }

  lemma NoOps(lines: seq<string>, position: nat)
    ensures ParseOps(lines, position, |Old([])|, |New([])|) == Some(Parsed([], position))
  {
  }

  lemma HunkHeaderIsNoFileHeader(h: Hunk, newStart: nat)
    requires h.start >= 0
    ensures !IsFileHeader(PrintHunkHeader(h, newStart))
  {
    assert PrintHunkHeader(h, newStart)[0] == '@';
  }

  lemma ParseHunkPrinted(lines: seq<string>, position: nat, h: Hunk, newStart: nat)
    requires h.start >= 0 && position + 1 + |h.ops| <= |lines|
    requires lines[position] == PrintHunkHeader(h, newStart)
    requires lines[position + 1..position + 1 + |h.ops|] == PrintOps(h.ops)
    ensures ParseHunk(lines, position) == Some(Parsed(h, position + 1 + |h.ops|))
    ensures !IsFileHeader(lines[position])
  {
    hide ReadHunkHeader, PrintHunkHeader, ParseOps, Old, New, IsFileHeader, PrintOp;
    ReadHunkHeaderPrinted(h, newStart);
    HunkHeaderIsNoFileHeader(h, newStart);
    forall i | 0 <= i < |h.ops|
      ensures lines[position + 1 + i] == PrintOp(h.ops[i])
    {
      assert lines[position + 1 + i] == lines[position + 1..position + 1 + |h.ops|][i];
    }
    ParseOpsPrinted(lines, position + 1, h.ops);
  }

  lemma {:induction false} ParseHunksPrinted(lines: seq<string>, position: nat, hunks: seq<Hunk>, newStart: Hunk -> nat)
    requires Startable(hunks)
    requires var text := PrintHunks(hunks, newStart);
             var end := position + |text|;
             && end <= |lines| && lines[position..end] == text
             && (end < |lines| ==> IsFileHeader(lines[end]))
    ensures ParseHunks(lines, position) == Some(Parsed(hunks, position + |PrintHunks(hunks, newStart)|))
    decreases |hunks|
  {
    hide ParseHunk, ParseHunks, PrintHunkHeader, IsFileHeader, PrintOps;
    if hunks == [] {
      ParseNoHunks(lines, position);
    } else {
      var h := hunks[0];
      var header, body, rest := PrintHunkHeader(h, newStart(h)), PrintOps(h.ops), PrintHunks(hunks[1..], newStart);
      var text := PrintHunks(hunks, newStart);
      var next := position + 1 + |body|;
      assert text == [header] + body + rest;
      Pieces(lines, position, header, body, rest);
      ParseHunkPrinted(lines, position, h, newStart(h));
      assert next + |rest| == position + |text|;
      ParseHunksPrinted(lines, next, hunks[1..], newStart);
      ParseHunksStep(lines, position, next, h, hunks[1..], next + |rest|);
      assert [h] + hunks[1..] == hunks;
    }
  }

  lemma ParseNoHunks(lines: seq<string>, position: nat)
    requires position < |lines| ==> IsFileHeader(lines[position])
    ensures ParseHunks(lines, position) == Some(Parsed([], position))
  {
  }

  lemma ParseHunksStep(lines: seq<string>, position: nat, next: nat, h: Hunk, rest: seq<Hunk>, end: nat)
    requires position < |lines| && !IsFileHeader(lines[position])
    requires ParseHunk(lines, position) == Some(Parsed(h, next))
    requires ParseHunks(lines, next) == Some(Parsed(rest, end))
    ensures ParseHunks(lines, position) == Some(Parsed([h] + rest, end))
  {
    hide ParseHunk;
  }

  lemma Within(s: seq<string>, start: nat, length: nat, a: nat, b: nat)
    requires start + length <= |s| && a <= b <= length
    ensures s[start..start + length][a..b] == s[start + a..start + b]
  {
    var inner, outer := s[start..start + length][a..b], s[start + a..start + b];
    assert |inner| == |outer| == b - a;
    forall i | 0 <= i < b - a
      ensures inner[i] == outer[i]
    {
      assert inner[i] == s[start..start + length][a + i] == s[start + a + i];
    }
  }

  lemma Pieces(lines: seq<string>, position: nat, header: string, body: seq<string>, rest: seq<string>)
    requires var text := [header] + body + rest;
             position + |text| <= |lines| && lines[position..position + |text|] == text
    ensures lines[position] == header
    ensures lines[position + 1..position + 1 + |body|] == body
    ensures var next := position + 1 + |body|; lines[next..next + |rest|] == rest
  {
    var text := [header] + body + rest;
    var part := lines[position..position + |text|];
    var next := position + 1 + |body|;
    assert lines[position] == part[0];
    Within(lines, position, |text|, 1, 1 + |body|);
    Within(lines, position, |text|, 1 + |body|, |text|);
    assert text[1..1 + |body|] == body && text[1 + |body|..|text|] == rest;
  }

  lemma PrintedIsFileHeader(path: Option<string>)
    ensures IsFileHeader(PrintPath("--- ", "a/", path))
  {
    assert PrintPath("--- ", "a/", path)[..4] == "--- ";
  }

  lemma ParsePathsPrinted(policy: Policy, lines: seq<string>, position: nat, s: Section)
    requires Printable(policy, s) && position + 1 < |lines|
    requires lines[position] == PrintPath("--- ", "a/", s.oldPath)
    requires lines[position + 1] == PrintPath("+++ ", "b/", s.newPath)
    ensures ParsePaths(policy, lines, position) == Some(s.(hunks := []))
    ensures IsFileHeader(lines[position])
  {
    hide HeaderPath, SectionPath, PlainPath, IsFileHeader, PrintPath, PathsAgree;
    PrintedIsFileHeader(s.oldPath);
    assert s.(hunks := []) == Section(s.oldPath, s.newPath, []);
    HeaderPathPrinted(policy, "--- ", "a/", s.oldPath);
    HeaderPathPrinted(policy, "+++ ", "b/", s.newPath);
  }

  lemma PrintedStartsWithHeader(ss: seq<Section>, newStart: Hunk -> nat)
    requires AllStartable(ss)
    ensures var text := PrintSections(ss, newStart); text != [] ==> IsFileHeader(text[0])
    ensures ss != [] ==> PrintSections(ss, newStart) != []
  {
    if ss != [] {
      assert PrintSections(ss, newStart)[0] == PrintSection(ss[0], newStart)[0] == PrintPath("--- ", "a/", ss[0].oldPath);
    }
  }

  lemma SectionPieces(lines: seq<string>, position: nat, a: string, b: string, body: seq<string>, rest: seq<string>)
    requires position <= |lines| && lines[position..] == [a, b] + body + rest
    ensures var next := position + 2 + |body|;
            && next <= |lines| && lines[position] == a && lines[position + 1] == b
            && lines[position + 2..next] == body && lines[next..] == rest
  {
    var text := lines[position..];
    assert lines[position] == text[0] && lines[position + 1] == text[1];
    assert text[2..][..|body|] == body && text[2 + |body|..] == rest;
    assert lines[position + 2..] == text[2..];
    assert lines[position + 2..position + 2 + |body|] == lines[position + 2..][..|body|];
    assert lines[position + 2 + |body|..] == text[2 + |body|..];
  }

  lemma {:induction false} ParseSectionsPrinted(policy: Policy, lines: seq<string>, position: nat,
                                                ss: seq<Section>, newStart: Hunk -> nat)
    requires AllPrintable(policy, ss)
    requires position <= |lines| && lines[position..] == PrintSections(ss, newStart)
    ensures ParseSections(policy, lines, position) == Some(ss)
    decreases |ss|
  {
    hide ParsePaths, ParseHunks, PrintPath, PrintHunks, IsFileHeader, PathsAgree, PlainPath;
    if ss != [] {
      var s := ss[0];
      var head, body, rest := PrintSection(s, newStart), PrintHunks(s.hunks, newStart), PrintSections(ss[1..], newStart);
      var next := position + |head|;
      SectionPieces(lines, position, head[0], head[1], body, rest);
      PrintedStartsWithHeader(ss[1..], newStart);
      assert next < |lines| ==> lines[next] == rest[0];
      ParsePathsPrinted(policy, lines, position, s);
      ParseHunksPrinted(lines, position + 2, s.hunks, newStart);
      assert s.(hunks := []).(hunks := s.hunks) == s;
      ParseSectionsPrinted(policy, lines, next, ss[1..], newStart);
      assert [s] + ss[1..] == ss;
    } else {
      assert lines[position..] == [];
    }
  }

  /** Printing any list of sections and reading it gives the list, whatever the
      hunk lines say: a removed line may begin with `-- ` and so look like a
      file header. */
  lemma PrintThenParse(policy: Policy, ss: seq<Section>, newStart: Hunk -> nat)
    requires AllPrintable(policy, ss)
    ensures ParseSections(policy, PrintSections(ss, newStart), 0) == Some(ss)
  {
    var lines := PrintSections(ss, newStart);
    assert lines[0..] == lines;
    ParseSectionsPrinted(policy, lines, 0, ss, newStart);
  }
}
