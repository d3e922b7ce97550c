/** Which texts are read as a diff at all, and as which sections. */
module PatchStrict {
  import opened Results
  import opened Patch
  import opened PatchText
  import Decimal

  // ---- Hunk headers ----

  predicate Names(s: string, n: nat) {
    Decimal.IsNumeral(s) && Decimal.Value(s) == n
  }

  /** A comma and a numeral, or nothing for one line. */
  predicate Counts(s: string, n: nat) {
    (s == "" && n == 1) || (s != "" && s[0] == ',' && Names(s[1..], n))
  }

  /** A heading after a blank or nothing, and at most one newline, at the end. */
  predicate Ends(s: string) {
    s == "" || s == "\n" || (s[0] == ' ' && '\n' !in s[..|s| - 1])
  }

  datatype Parts = Parts(start: string, count: string, newStart: string, newCount: string, end: string)
  {
    function Joined(): string {
      "@@ -" + (start + (count + (" +" + (newStart + (newCount + (" @@" + end))))))
    }
  }

  ghost predicate IsHeader(line: string, h: HunkHeader) {
    exists p: Parts :: line == p.Joined() && IsHeaderOf(p, h)
  }

  predicate IsHeaderOf(p: Parts, h: HunkHeader) {
    && Names(p.start, h.oldStart) && Counts(p.count, h.oldCount)
    && Decimal.IsNumeral(p.newStart) && Counts(p.newCount, h.newCount) && Ends(p.end)
  }

  lemma NumeralRead(s: string, n: nat, rest: string)
    requires Names(s, n) && (rest != [] ==> !Decimal.IsDigit(rest[0]))
    ensures ReadNumeral(s + rest) == Some(Numbered(n, rest))
  {
    DigitRunOf(s, rest);
    assert (s + rest)[..|s|] == s && (s + rest)[|s|..] == rest;
  }

  lemma NumeralSound(s: string)
    requires ReadNumeral(s).Some?
    ensures var r := ReadNumeral(s).value;
            var n := DigitRun(s);
            s == s[..n] + r.rest && Names(s[..n], r.value) && (r.rest != [] ==> !Decimal.IsDigit(r.rest[0]))
  {
  }

  lemma CountRead(s: string, n: nat, rest: string)
    requires Counts(s, n) && rest != [] && rest[0] == ' '
    ensures ReadCount(s + rest) == Some(Numbered(n, rest))
    ensures !Decimal.IsDigit((s + rest)[0])
  {
    hide ReadNumeral;
    if s == "" {
      assert s + rest == rest;
    } else {
      NumeralRead(s[1..], n, rest);
      assert (s + rest)[1..] == s[1..] + rest;
    }
  }

  lemma CountSound(s: string) returns (count: string)
    requires ReadCount(s).Some?
    ensures var r := ReadCount(s).value; s == count + r.rest && Counts(count, r.value)
  {
    hide ReadNumeral;
    if s != [] && s[0] == ',' {
      NumeralSound(s[1..]);
      count := [','] + s[1..][..DigitRun(s[1..])];
      assert count[1..] == s[1..][..DigitRun(s[1..])];
      assert s == [','] + s[1..];
    } else {
      count := "";
    }
  }

  lemma RangeRead(start: string, s: nat, count: string, n: nat, rest: string)
    requires Names(start, s) && Counts(count, n) && rest != [] && rest[0] == ' '
    ensures ReadRange(start + (count + rest)) == Some(Range(s, n, rest))
  {
    hide ReadNumeral, ReadCount, Names, Counts;
    CountRead(count, n, rest);
    NumeralRead(start, s, count + rest);
  }

  lemma RangeSound(s: string) returns (start: string, count: string)
    requires ReadRange(s).Some?
    ensures var r := ReadRange(s).value;
            s == start + (count + r.rest) && Names(start, r.start) && Counts(count, r.count)
  {
    hide ReadNumeral, ReadCount, Names, Counts;
    NumeralSound(s);
    start := s[..DigitRun(s)];
    count := CountSound(ReadNumeral(s).value.rest);
  }

  lemma EndsMean(s: string)
    ensures IsHeaderEnd(s) <==> Ends(s)
  {
    if s != [] && s[|s| - 1] == '\n' {
      assert s == s[..|s| - 1] + ['\n'];
      assert s[..|s| - 1] == [] ==> s == "\n";
    } else if s != [] {
      assert s == s[..|s| - 1] + [s[|s| - 1]];
    }
  }

  lemma HeaderRead(p: Parts, h: HunkHeader)
    requires IsHeaderOf(p, h)
    ensures ReadHunkHeader(p.Joined()) == Some(h)
  {
    hide ReadRange, IsHeaderEnd, Names, Counts, Ends;
    var after := p.newStart + (p.newCount + (" @@" + p.end));
    var line := p.Joined();
    assert line[4..] == p.start + (p.count + (" +" + after));
    RangeRead(p.start, h.oldStart, p.count, h.oldCount, " +" + after);
    assert (" +" + after)[2..] == after;
    NamesSomething(p.newStart);
    RangeRead(p.newStart, Decimal.Value(p.newStart), p.newCount, h.newCount, " @@" + p.end);
    assert (" @@" + p.end)[3..] == p.end;
    EndsMean(p.end);
  }

  lemma NamesSomething(s: string)
    requires Decimal.IsNumeral(s)
    ensures Names(s, Decimal.Value(s))
  {
  }

  lemma NamesNumeral(s: string, n: nat)
    requires Names(s, n)
    ensures Decimal.IsNumeral(s)
  {
  }

  lemma HeaderSound(line: string)
    requires ReadHunkHeader(line).Some?
    ensures IsHeader(line, ReadHunkHeader(line).value)
  {
    hide ReadRange, IsHeaderEnd, Names, Counts, Ends;
    var start, count := RangeSound(line[4..]);
    var before := ReadRange(line[4..]).value;
    var newStart, newCount := RangeSound(before.rest[2..]);
    var after := ReadRange(before.rest[2..]).value;
    NamesNumeral(newStart, after.start);
    EndsMean(after.rest[3..]);
    var p := Parts(start, count, newStart, newCount, after.rest[3..]);
    assert line == "@@ -" + line[4..];
    assert before.rest == " +" + before.rest[2..];
    assert after.rest == " @@" + p.end;
    assert line == p.Joined();
  }

  /** A line is read as a hunk header exactly if it is one: both ranges, counts of one
      left out or not, and nothing after them but a heading. */
  lemma HeadersExactly(line: string, h: HunkHeader)
    ensures ReadHunkHeader(line) == Some(h) <==> IsHeader(line, h)
  {
    hide ReadHunkHeader, IsHeaderOf;
    if ReadHunkHeader(line) == Some(h) {
      HeaderSound(line);
    } else if IsHeader(line, h) {
      var p: Parts :| line == p.Joined() && IsHeaderOf(p, h);
      HeaderRead(p, h);
    }
  }

  // ---- Hunks ----

  /** The line says the operation: a mark and the text. */
  predicate Says(line: string, op: Op) {
    && line != ""
    && match op
       case Keep(text) => line[0] == ' ' && line[1..] == text
       case Remove(text) => line[0] == '-' && line[1..] == text
       case Insert(text) => line[0] == '+' && line[1..] == text
  }

  /** From this place on the lines say the operations, one by one. */
  predicate SayAll(lines: seq<string>, at: nat, ops: seq<Op>) {
    at + |ops| <= |lines| && forall i :: 0 <= i < |ops| ==> Says(lines[at + i], ops[i])
  }

  lemma ReadOpExactly(line: string, op: Op)
    ensures ReadOp(line) == Some(op) <==> Says(line, op)
  {
  }

  lemma {:induction false} OpsSound(lines: seq<string>, at: nat, oldLeft: nat, newLeft: nat)
    requires at <= |lines| && ParseOps(lines, at, oldLeft, newLeft).Some?
    ensures var r := ParseOps(lines, at, oldLeft, newLeft).value;
            && SayAll(lines, at, r.value) && r.position == at + |r.value|
            && |Old(r.value)| == oldLeft && |New(r.value)| == newLeft
    decreases oldLeft + newLeft
  {
    hide ReadOp, Says;
    if oldLeft + newLeft > 0 {
      var op := ReadOp(lines[at]).value;
      ReadOpExactly(lines[at], op);
      OpsSound(lines, at + 1, oldLeft - (if op.Insert? then 0 else 1), newLeft - (if op.Remove? then 0 else 1));
      var rest := ParseOps(lines, at + 1, oldLeft - (if op.Insert? then 0 else 1), newLeft - (if op.Remove? then 0 else 1)).value;
      var ops := [op] + rest.value;
      assert ops[1..] == rest.value;
      forall i | 0 <= i < |ops|
        ensures Says(lines[at + i], ops[i])
      {
        assert i > 0 ==> Says(lines[at + 1 + (i - 1)], rest.value[i - 1]);
      }
    }
  }

  lemma {:induction false} OpsComplete(lines: seq<string>, at: nat, ops: seq<Op>)
    requires SayAll(lines, at, ops)
    ensures ParseOps(lines, at, |Old(ops)|, |New(ops)|) == Some(Parsed(ops, at + |ops|))
    decreases |ops|
  {
    hide ReadOp, Says, ParseOps, Old, New;
    if ops == [] {
      NoOps(lines, at);
    } else {
      assert Says(lines[at + 0], ops[0]);
      ReadOpExactly(lines[at], ops[0]);
      forall i | 0 <= i < |ops[1..]|
        ensures Says(lines[at + 1 + i], ops[1..][i])
      {
        assert Says(lines[at + (i + 1)], ops[i + 1]);
      }
      OpsComplete(lines, at + 1, ops[1..]);
      assert [ops[0]] + ops[1..] == ops;
      ParseOpsStep(lines, at, ops[0], ops[1..], at + |ops|);
    }
  }

  /** A hunk at this place: a header with the counts of its lines, and those lines. */
  ghost predicate IsHunk(lines: seq<string>, at: nat, h: Hunk) {
    && at < |lines| && h.start >= 0
    && IsHeader(lines[at], HunkHeader(h.start, |Old(h.ops)|, |New(h.ops)|))
    && SayAll(lines, at + 1, h.ops)
  }

  lemma HunkExactly(lines: seq<string>, at: nat, h: Hunk, end: nat)
    requires at < |lines|
    ensures ParseHunk(lines, at) == Some(Parsed(h, end)) <==> IsHunk(lines, at, h) && end == at + 1 + |h.ops|
  {
    hide ReadHunkHeader, IsHeader, ParseOps, SayAll, Old, New;
    if ParseHunk(lines, at).Some? {
      var header := ReadHunkHeader(lines[at]).value;
      HeadersExactly(lines[at], header);
      OpsSound(lines, at + 1, header.oldCount, header.newCount);
    }
    if IsHunk(lines, at, h) {
      HeadersExactly(lines[at], HunkHeader(h.start, |Old(h.ops)|, |New(h.ops)|));
      OpsComplete(lines, at + 1, h.ops);
    }
  }

  /** Hunks one after the other from here to there. */
  ghost predicate AreHunks(lines: seq<string>, at: nat, end: nat, hunks: seq<Hunk>)
    decreases |hunks|
  {
    if hunks == [] then at == end
    else IsHunk(lines, at, hunks[0]) && AreHunks(lines, at + 1 + |hunks[0].ops|, end, hunks[1..])
  }

  predicate AtBreak(lines: seq<string>, end: nat) {
    end == |lines| || (end < |lines| && IsFileHeader(lines[end]))
  }

  lemma HunkIsNoFileHeader(lines: seq<string>, at: nat, h: Hunk)
    requires IsHunk(lines, at, h)
    ensures !IsFileHeader(lines[at]) && at + 1 + |h.ops| <= |lines|
  {
    hide IsHeaderOf, Old, New;
    var p: Parts :| lines[at] == p.Joined() && IsHeaderOf(p, HunkHeader(h.start, |Old(h.ops)|, |New(h.ops)|));
    assert p.Joined()[0] == '@';
  }

  lemma {:induction false} HunksSound(lines: seq<string>, at: nat)
    requires at <= |lines| && ParseHunks(lines, at).Some?
    ensures var r := ParseHunks(lines, at).value;
            AreHunks(lines, at, r.position, r.value) && AtBreak(lines, r.position)
    decreases |lines| - at
  {
    hide ParseHunk, IsHunk, IsFileHeader;
    if at < |lines| && !IsFileHeader(lines[at]) {
      var hunk := ParseHunk(lines, at).value;
      HunkExactly(lines, at, hunk.value, hunk.position);
      HunkIsNoFileHeader(lines, at, hunk.value);
      HunksSound(lines, hunk.position);
      var rest := ParseHunks(lines, hunk.position).value;
      assert ([hunk.value] + rest.value)[1..] == rest.value;
    }
  }

  lemma {:induction false} HunksComplete(lines: seq<string>, at: nat, end: nat, hunks: seq<Hunk>)
    requires at <= |lines| && AreHunks(lines, at, end, hunks) && AtBreak(lines, end)
    ensures ParseHunks(lines, at) == Some(Parsed(hunks, end))
    decreases |hunks|
  {
    hide ParseHunk, ParseHunks, IsHunk, IsFileHeader;
    if hunks == [] {
      ParseNoHunks(lines, at);
    } else {
      var next := at + 1 + |hunks[0].ops|;
      HunkIsNoFileHeader(lines, at, hunks[0]);
      HunkStarts(lines, at, hunks[0]);
      HunkExactly(lines, at, hunks[0], next);
      HunksComplete(lines, next, end, hunks[1..]);
      ParseHunksStep(lines, at, next, hunks[0], hunks[1..], end);
      assert [hunks[0]] + hunks[1..] == hunks;
    }
  }

  lemma HunkStarts(lines: seq<string>, at: nat, h: Hunk)
    requires IsHunk(lines, at, h)
    ensures at < |lines|
  {
  }

  // ---- Sections ----

  /** The text without its first tab and what follows, or without trailing newlines. */
  predicate IsValueOf(value: string, text: string) {
    && '\t' !in value && value <= text
    && if |value| < |text| && text[|value|] == '\t' then true
       else OnlyNewlines(text, |value|) && (value == "" || value[|value| - 1] != '\n')
  }

  predicate OnlyNewlines(s: string, from: nat) {
    forall i :: from <= i < |s| ==> s[i] == '\n'
  }

  /** The text after the mark of a header line names the path behind its prefix, or no
      file. */
  ghost predicate NamesPath(policy: Policy, text: string, prefix: string, path: Option<string>) {
    exists value :: IsValueOf(value, text) && ValueNames(policy, value, prefix, path)
  }

  predicate ValueNames(policy: Policy, value: string, prefix: string, path: Option<string>) {
    if value == "/dev/null" then path == None
    else path.Some? && prefix <= value && |value| >= 2 && policy.normalize(value[2..]) == path
  }

  lemma {:induction false} Trimmed(s: string)
    ensures var t := TrimNewlines(s);
            t <= s && OnlyNewlines(s, |t|) && (t == "" || t[|t| - 1] != '\n')
  {
    if s != [] && s[|s| - 1] == '\n' {
      Trimmed(s[..|s| - 1]);
    }
  }

  lemma {:induction false} Cut(s: string)
    ensures var u := UntilTab(s); u <= s && '\t' !in u && (|u| < |s| ==> s[|u|] == '\t')
  {
    if s != [] && s[0] != '\t' {
      Cut(s[1..]);
      assert s == [s[0]] + s[1..];
    }
  }

  lemma ValueIs(text: string)
    ensures IsValueOf(UntilTab(TrimNewlines(text)), text)
  {
    var t := TrimNewlines(text);
    Trimmed(text);
    Cut(t);
  }

  lemma ValueOnce(a: string, b: string, text: string)
    requires IsValueOf(a, text) && IsValueOf(b, text) && |a| <= |b|
    ensures a == b
  {
    if |a| < |b| {
      assert false;
    }
  }

  lemma HeaderPathExactly(policy: Policy, text: string, prefix: string, path: Option<string>)
    requires |prefix| == 2
    ensures HeaderPath(policy, text, prefix) == Ok(path) <==> NamesPath(policy, text, prefix, path)
  {
    hide IsValueOf, TrimNewlines, UntilTab;
    var value := UntilTab(TrimNewlines(text));
    ValueIs(text);
    if NamesPath(policy, text, prefix, path) {
      var other :| IsValueOf(other, text) && ValueNames(policy, other, prefix, path);
      if |value| <= |other| {
        ValueOnce(value, other, text);
      } else {
        ValueOnce(other, value, text);
      }
    }
  }

  /** A section at this place: two header lines that agree on a path the tools may
      touch, then hunks, at least one, up to the next section or the end. */
  ghost predicate IsSection(policy: Policy, lines: seq<string>, at: nat, end: nat, s: Section) {
    && at + 1 < |lines| && "--- " <= lines[at] && s.hunks != []
    && NamesPath(policy, Drop(lines[at], 4), "a/", s.oldPath) && NamesPath(policy, Drop(lines[at + 1], 4), "b/", s.newPath)
    && Agree(policy, s.oldPath, s.newPath)
    && AreHunks(lines, at + 2, end, s.hunks) && AtBreak(lines, end)
  }

  /** There is a path, the same on both sides if both name one, and the tools may
      touch it. */
  predicate Agree(policy: Policy, oldPath: Option<string>, newPath: Option<string>) {
    || (newPath == None && oldPath.Some? && policy.admit(oldPath.value).Some?)
    || (newPath.Some? && (oldPath == None || oldPath == newPath) && policy.admit(newPath.value).Some?)
  }

  lemma AgreeMeans(policy: Policy, oldPath: Option<string>, newPath: Option<string>)
    ensures PathsAgree(policy, oldPath, newPath) <==> Agree(policy, oldPath, newPath)
  {
  }

  lemma PathsRead(policy: Policy, lines: seq<string>, at: nat, s: Section)
    requires at + 1 < |lines|
    ensures NamesPath(policy, Drop(lines[at], 4), "a/", s.oldPath) <==> HeaderPath(policy, Drop(lines[at], 4), "a/") == Ok(s.oldPath)
    ensures NamesPath(policy, Drop(lines[at + 1], 4), "b/", s.newPath) <==>
              HeaderPath(policy, Drop(lines[at + 1], 4), "b/") == Ok(s.newPath)
  {
    hide HeaderPath, NamesPath;
    HeaderPathExactly(policy, Drop(lines[at], 4), "a/", s.oldPath);
    HeaderPathExactly(policy, Drop(lines[at + 1], 4), "b/", s.newPath);
  }

  lemma SectionExactly(policy: Policy, lines: seq<string>, at: nat, s: Section, end: nat)
    requires at < |lines|
    ensures ParseSection(policy, lines, at) == Some(Parsed(s, end)) <==> IsSection(policy, lines, at, end, s)
  {
    hide HeaderPath, NamesPath, Drop, AreHunks, AtBreak, ParseHunks, PathsAgree, Agree;
    if at + 1 < |lines| {
      PathsRead(policy, lines, at, s);
    }
    if ParseSection(policy, lines, at).Some? {
      var paths := ParsePaths(policy, lines, at).value;
      AgreeMeans(policy, paths.oldPath, paths.newPath);
      HunksSound(lines, at + 2);
    }
    if IsSection(policy, lines, at, end, s) {
      AgreeMeans(policy, s.oldPath, s.newPath);
      HunksComplete(lines, at + 2, end, s.hunks);
      assert Section(s.oldPath, s.newPath, []).(hunks := s.hunks) == s;
    }
  }

  /** The lines from here on are exactly these sections. */
  ghost predicate AreSections(policy: Policy, lines: seq<string>, at: nat, ss: seq<Section>)
    decreases |ss|
  {
    if ss == [] then at == |lines|
    else exists end :: IsSection(policy, lines, at, end, ss[0]) && AreSections(policy, lines, end, ss[1..])
  }

  lemma SectionEnds(policy: Policy, lines: seq<string>, at: nat, end: nat, s: Section)
    requires IsSection(policy, lines, at, end, s)
    ensures at < end <= |lines|
  {
    hide NamesPath, Drop, AtBreak, Agree, AreHunks;
    SectionExactly(policy, lines, at, s, end);
    assert AtBreak(lines, end);
    BreakWithin(lines, end);
  }

  lemma BreakWithin(lines: seq<string>, end: nat)
    requires AtBreak(lines, end)
    ensures end <= |lines|
  {
  }

  lemma {:induction false} SectionsExactly(policy: Policy, lines: seq<string>, at: nat, ss: seq<Section>)
    requires at <= |lines|
    ensures ParseSections(policy, lines, at) == Some(ss) <==> AreSections(policy, lines, at, ss)
    decreases |lines| - at
  {
    hide ParseSection, IsSection;
    if at < |lines| && ParseSection(policy, lines, at).Some? {
      var section := ParseSection(policy, lines, at).value;
      SectionExactly(policy, lines, at, section.value, section.position);
      SectionEnds(policy, lines, at, section.position, section.value);
      if ParseSections(policy, lines, section.position).Some? {
        var rest := ParseSections(policy, lines, section.position).value;
        SectionsExactly(policy, lines, section.position, rest);
        assert ([section.value] + rest)[1..] == rest;
      }
    }
    if ss != [] && AreSections(policy, lines, at, ss) {
      var end: nat :| IsSection(policy, lines, at, end, ss[0]) && AreSections(policy, lines, end, ss[1..]);
      SectionEnds(policy, lines, at, end, ss[0]);
      SectionExactly(policy, lines, at, ss[0], end);
      SectionsExactly(policy, lines, end, ss[1..]);
      assert [ss[0]] + ss[1..] == ss;
    }
  }

  /** A text is read as a diff exactly if it is one, and then as exactly these
      sections: every line belongs to a header or to a hunk, every hunk has the lines
      its header counts, and nothing is left over. */
  lemma DiffsExactly(policy: Policy, lines: seq<string>, ss: seq<Section>)
    ensures ParseSections(policy, lines, 0) == Some(ss) <==> AreSections(policy, lines, 0, ss)
  {
    hide ParseSections, AreSections;
    SectionsExactly(policy, lines, 0, ss);
  }
}
