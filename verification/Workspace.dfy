/** The workspace's patch tool: the one-pass reader that applies a diff while it
    reads it, and the guarded rewrite of the files. */
module Workspace {
  import opened Results
  import opened Patch
  import opened PatchText

  const MAX_PATCH_BYTES := 1024 * 1024
  const MAX_PATCH_FILES := 100
  const MAX_FILE_BYTES := 8 * 1024 * 1024
  const MAX_FILES := 10000
  const MAX_TREE_BYTES := 64 * 1024 * 1024

  type Lines = seq<string>
  type Tree = map<string, Lines>

  // ---- Sizes and permitted characters ----

  function Utf8Width(c: char): nat {
    if c as int < 0x80 then 1 else if c as int < 0x800 then 2 else if c as int < 0x10000 then 3 else 4
  }

  function LineBytes(s: string): nat {
    if s == [] then 0 else LineBytes(s[..|s| - 1]) + Utf8Width(s[|s| - 1])
  }

  function ByteSize(lines: Lines): nat {
    if lines == [] then 0 else ByteSize(lines[..|lines| - 1]) + LineBytes(lines[|lines| - 1])
  }

  predicate TextAllowed(lines: Lines) {
    && lines != [] && ByteSize(lines) <= MAX_PATCH_BYTES
    && forall line <- lines :: '\0' !in line && '\r' !in line
  }

  // ---- What a diff asks for ----

  /** The lines of a file before and after; absent when there is no file. */
  datatype Edit = Edit(path: string, before: Option<Lines>, after: Option<Lines>)

  function Applied(before: Option<Lines>, hunks: seq<Hunk>): Option<Lines> {
    Apply(if before.Some? then before.value else [], hunks)
  }

  /** The edit of one section. A section whose old path is absent starts from no
      lines even if the file exists; one whose new path is absent deletes the
      file whatever lines its hunks leave. */
  function EditOf(policy: Policy, tree: Tree, s: Section): Option<Edit> {
    var path := SectionPath(policy, s);
    if path.None? || (s.oldPath.Some? && path.value !in tree) then None else
    var before := if s.oldPath.Some? then Some(tree[path.value]) else None;
    var applied := Applied(before, s.hunks);
    if applied.None? then None else
    if s.newPath.None? then Some(Edit(path.value, before, None)) else
    if ByteSize(applied.value) > MAX_FILE_BYTES then None else Some(Edit(path.value, before, applied))
  }

  function EditsOf(policy: Policy, tree: Tree, ss: seq<Section>): (r: Option<seq<Edit>>)
    ensures r.Some? ==> |r.value| == |ss|
  {
    if ss == [] then Some([]) else
    var first := EditOf(policy, tree, ss[0]);
    var rest := EditsOf(policy, tree, ss[1..]);
    if first.None? || rest.None? then None else Some([first.value] + rest.value)
  }

  /** No two names are one file on a case-insensitive file system. */
  predicate Distinct(fold: string -> string, paths: seq<string>) {
    forall i, j :: 0 <= i < j < |paths| ==> fold(paths[i]) != fold(paths[j])
  }

  function Paths(edits: seq<Edit>): (ps: seq<string>)
    ensures |ps| == |edits| && forall i :: 0 <= i < |edits| ==> ps[i] == edits[i].path
  {
    seq(|edits|, i requires 0 <= i < |edits| => edits[i].path)
  }

  /** The edits of a whole diff: read the text, then take each section. */
  function EditsOfText(policy: Policy, tree: Tree, fold: string -> string, lines: Lines): Option<seq<Edit>> {
    if !TextAllowed(lines) then None else
    var sections := ParseSections(policy, lines, 0);
    if sections.None? then None else
    var edits := EditsOf(policy, tree, sections.value);
    if edits.None? || |edits.value| > MAX_PATCH_FILES || !Distinct(fold, Paths(edits.value)) then None else edits
  }

  function Project(tree: Tree, edits: seq<Edit>): Tree {
    if edits == [] then tree else
    var earlier := Project(tree, edits[..|edits| - 1]);
    var last := edits[|edits| - 1];
    if last.after.None? then earlier - {last.path} else earlier[last.path := last.after.value]
  }

  // ---- The one-pass reader ----

  datatype HunkReplay = HunkReplay(output: Lines, position: nat, consumed: nat)

  function Prepend<T>(front: seq<T>, rest: Option<Parsed<seq<T>>>): Option<Parsed<seq<T>>> {
    if rest.None? then None else Some(Parsed(front + rest.value.value, rest.value.position))
  }

  predicate Matches(original: Lines, at: nat, ops: seq<Op>) {
    at + |Old(ops)| <= |original| && original[at..at + |Old(ops)|] == Old(ops)
  }

  function Replayed(original: Lines, consumed: nat, parsed: Option<Parsed<seq<Op>>>): Option<HunkReplay> {
    if parsed.None? || !Matches(original, consumed, parsed.value.value) then None else
    var ops := parsed.value.value;
    Some(HunkReplay(New(ops), parsed.value.position, consumed + |Old(ops)|))
  }

  lemma OldCons(op: Op, rest: seq<Op>)
    ensures Old([op] + rest) == (if op.Insert? then [] else [op.text]) + Old(rest)
    ensures Old([]) == []
  {
    assert ([op] + rest)[1..] == rest;
  }

  lemma {:induction false} OldConcat(a: seq<Op>, b: seq<Op>)
    ensures Old(a + b) == Old(a) + Old(b)
  {
    hide Old;
    if a == [] {
      OldCons(Keep(""), []);
      assert a + b == b;
    } else {
      var front := if a[0].Insert? then [] else [a[0].text];
      OldConcat(a[1..], b);
      OldCons(a[0], a[1..]);
      OldCons(a[0], a[1..] + b);
      assert [a[0]] + a[1..] == a && [a[0]] + (a[1..] + b) == a + b;
    }
  }

  lemma NewCons(op: Op, rest: seq<Op>)
    ensures New([op] + rest) == (if op.Remove? then [] else [op.text]) + New(rest)
    ensures New([]) == []
  {
    assert ([op] + rest)[1..] == rest;
  }

  lemma {:induction false} NewConcat(a: seq<Op>, b: seq<Op>)
    ensures New(a + b) == New(a) + New(b)
  {
    hide New;
    if a == [] {
      NewCons(Keep(""), []);
      assert a + b == b;
    } else {
      var front := if a[0].Remove? then [] else [a[0].text];
      NewConcat(a[1..], b);
      NewCons(a[0], a[1..]);
      NewCons(a[0], a[1..] + b);
      assert [a[0]] + a[1..] == a && [a[0]] + (a[1..] + b) == a + b;
    }
  }

  lemma SidesOne(op: Op)
    ensures Old([op]) == (if op.Insert? then [] else [op.text])
    ensures New([op]) == (if op.Remove? then [] else [op.text])
  {
    assert [op][1..] == [];
  }

  /** A prefix that does not match keeps the whole from matching. */
  lemma MismatchStays(original: Lines, at: nat, ops: seq<Op>, op: Op, more: seq<Op>)
    requires Matches(original, at, ops) && !op.Insert?
    requires var next := at + |Old(ops)|; next >= |original| || original[next] != op.text
    ensures !Matches(original, at, ops + [op] + more)
  {
    hide Old;
    OldConcat(ops + [op], more);
    OldConcat(ops, [op]);
    SidesOne(op);
    var whole := Old(ops + [op] + more);
    assert whole[|Old(ops)|] == op.text;
    if at + |whole| <= |original| {
      assert original[at..at + |whole|][|Old(ops)|] == original[at + |Old(ops)|];
    }
  }

  lemma MatchGrows(original: Lines, at: nat, ops: seq<Op>, op: Op)
    requires Matches(original, at, ops)
    requires op.Insert? || (at + |Old(ops)| < |original| && original[at + |Old(ops)|] == op.text)
    ensures Matches(original, at, ops + [op])
  {
    hide Old;
    OldConcat(ops, [op]);
    SidesOne(op);
  }

  lemma ParseOpsStep(lines: Lines, start: nat, position: nat, ops: seq<Op>, op: Op,
                     oldCount: nat, newCount: nat, oldLeft: nat, newLeft: nat)
    requires position < |lines| && (oldLeft > 0 || newLeft > 0)
    requires ParseOps(lines, start, oldCount, newCount) == Prepend(ops, ParseOps(lines, position, oldLeft, newLeft))
    requires ReadOp(lines[position]) == Some(op)
    requires (op.Insert? || oldLeft > 0) && (op.Remove? || newLeft > 0)
    ensures ParseOps(lines, start, oldCount, newCount)
            == Prepend(ops + [op], ParseOps(lines, position + 1, oldLeft - (if op.Insert? then 0 else 1),
                                            newLeft - (if op.Remove? then 0 else 1)))
  {
    hide ReadOp;
    var rest := ParseOps(lines, position + 1, oldLeft - (if op.Insert? then 0 else 1),
                         newLeft - (if op.Remove? then 0 else 1));
    if rest.Some? {
      assert ops + ([op] + rest.value.value) == ops + [op] + rest.value.value;
    }
  }

  /** The body of one hunk, read and applied line by line. */
  method ReplayHunk(lines: Lines, start: nat, original: Lines, from: nat, oldCount: nat, newCount: nat)
    returns (r: Option<HunkReplay>)
    requires from <= |original|
    ensures r == Replayed(original, from, ParseOps(lines, start, oldCount, newCount))
    ensures r.Some? ==> r.value.consumed <= |original|
  {
    hide ParseOps, Old, New, ReadOp, Matches;
    ghost var ops: seq<Op> := [];
    NoOps(lines, start, original, from, oldCount, newCount);
    var output: Lines, position, consumed := [], start, from;
    var seenOld, seenNew := 0, 0;
    while seenOld < oldCount || seenNew < newCount
      invariant seenOld <= oldCount && seenNew <= newCount && start <= position
      invariant ParseOps(lines, start, oldCount, newCount)
                == Prepend(ops, ParseOps(lines, position, oldCount - seenOld, newCount - seenNew))
      invariant Matches(original, from, ops) && consumed == from + |Old(ops)| <= |original|
      invariant output == New(ops)
      decreases oldCount - seenOld + newCount - seenNew
    {
      if position >= |lines| {
        ParseOpsEnds(lines, position, oldCount - seenOld, newCount - seenNew);
        return None;
      }
      var read := ReadOp(lines[position]);
      if read.None? {
        ParseOpsEnds(lines, position, oldCount - seenOld, newCount - seenNew);
        return None;
      }
      var op := read.value;
      ghost var fits := (op.Insert? || seenOld < oldCount) && (op.Remove? || seenNew < newCount);
      if !fits {
        ParseOpsEnds(lines, position, oldCount - seenOld, newCount - seenNew);
      } else {
        ParseOpsStep(lines, start, position, ops, op, oldCount, newCount, oldCount - seenOld, newCount - seenNew);
      }
      OldConcat(ops, [op]);
      NewConcat(ops, [op]);
      SidesOne(op);
      if !op.Insert? {
        if consumed >= |original| || original[consumed] != op.text {
          MismatchAnyway(original, from, ops, op, ParseOps(lines, start, oldCount, newCount), fits,
            ParseOps(lines, position + 1, if fits && !op.Insert? then oldCount - seenOld - 1 else 0,
                     if fits then newCount - seenNew - (if op.Remove? then 0 else 1) else 0));
          return None;
        }
        consumed := consumed + 1;
        seenOld := seenOld + 1;
      }
      MatchGrows(original, from, ops, op);
      ops := ops + [op];
      if !op.Remove? {
        output := output + [op.text];
        seenNew := seenNew + 1;
      }
      if seenOld > oldCount || seenNew > newCount {
        return None;
      }
      position := position + 1;
    }
    ParseOpsDone(lines, position);
    return Some(HunkReplay(output, position, consumed));
  }

  lemma MismatchAnyway(original: Lines, from: nat, ops: seq<Op>, op: Op, whole: Option<Parsed<seq<Op>>>,
                       fits: bool, rest: Option<Parsed<seq<Op>>>)
    requires Matches(original, from, ops) && !op.Insert?
    requires var next := from + |Old(ops)|; next >= |original| || original[next] != op.text
    requires if fits then whole == Prepend(ops + [op], rest) else whole.None?
    ensures Replayed(original, from, whole).None?
  {
    hide Old, New, Matches;
    if fits && rest.Some? {
      MismatchStays(original, from, ops, op, rest.value.value);
    }
  }

  lemma NoOps(lines: Lines, start: nat, original: Lines, from: nat, oldCount: nat, newCount: nat)
    requires from <= |original|
    ensures Old([]) == [] && New([]) == [] && Matches(original, from, [])
    ensures var all := ParseOps(lines, start, oldCount, newCount); all == Prepend([], all)
  {
    var all := ParseOps(lines, start, oldCount, newCount);
    if all.Some? {
      assert [] + all.value.value == all.value.value;
    }
  }

  lemma ParseOpsEnds(lines: Lines, position: nat, oldLeft: nat, newLeft: nat)
    requires oldLeft > 0 || newLeft > 0
    requires position < |lines| ==>
               var op := ReadOp(lines[position]);
               op.None? || (!op.value.Insert? && oldLeft == 0) || (!op.value.Remove? && newLeft == 0)
    ensures ParseOps(lines, position, oldLeft, newLeft).None?
  {
  }

  lemma ParseOpsDone(lines: Lines, position: nat)
    ensures ParseOps(lines, position, 0, 0) == Some(Parsed([], position))
    ensures forall ops: seq<Op> :: ops + [] == ops
  {
  }

  // ---- One file ----

  datatype FileReplay = FileReplay(output: Lines, position: nat)

  function ReplayedFile(original: Lines, parsed: Option<Parsed<seq<Hunk>>>): Option<FileReplay> {
    if parsed.None? || parsed.value.value == [] then None else
    var applied := Apply(original, parsed.value.value);
    if applied.None? then None else Some(FileReplay(applied.value, parsed.value.position))
  }

  lemma {:induction false} ParseOpsCounts(lines: Lines, position: nat, oldLeft: nat, newLeft: nat)
    requires ParseOps(lines, position, oldLeft, newLeft).Some?
    ensures var ops := ParseOps(lines, position, oldLeft, newLeft).value.value;
            |Old(ops)| == oldLeft && |New(ops)| == newLeft
    decreases oldLeft + newLeft
  {
    if oldLeft > 0 || newLeft > 0 {
      var op := ReadOp(lines[position]).value;
      var o, n := oldLeft - (if op.Insert? then 0 else 1), newLeft - (if op.Remove? then 0 else 1);
      ParseOpsCounts(lines, position + 1, o, n);
      var rest := ParseOps(lines, position + 1, o, n).value.value;
      OldConcat([op], rest);
      NewConcat([op], rest);
      SidesOne(op);
    }
  }

  lemma {:induction false} AdvanceOfPrefix(original: Lines, a: seq<Hunk>, b: seq<Hunk>, n: nat)
    requires n <= |a|
    ensures Advance(original, a + b, n) == Advance(original, a, n)
  {
    hide ApplyHunk;
    if n > 0 {
      AdvanceOfPrefix(original, a, b, n - 1);
    }
  }

  lemma AdvanceOne(original: Lines, hunks: seq<Hunk>, h: Hunk)
    ensures Advance(original, hunks + [h], |hunks| + 1)
            == var at := Advance(original, hunks, |hunks|);
               if at.None? then None else ApplyHunk(original, at.value, h)
  {
    hide ApplyHunk;
    AdvanceOfPrefix(original, hunks, [h], |hunks|);
  }

  /** A hunk that does not fit keeps the whole section from applying. */
  lemma MisfitStays(original: Lines, hunks: seq<Hunk>, h: Hunk, more: seq<Hunk>)
    requires Advance(original, hunks + [h], |hunks| + 1).None?
    ensures Apply(original, hunks + [h] + more).None?
  {
    hide ApplyHunk, Advance;
    AdvanceOfPrefix(original, hunks + [h], more, |hunks| + 1);
    var all := hunks + [h] + more;
    if Advance(original, all, |all|).Some? {
      AdvanceEarlier(original, all, |hunks| + 1, |all|);
    }
  }

  lemma ParseHunksNext(lines: Lines, start: nat, position: nat, hunks: seq<Hunk>)
    requires position < |lines| && !IsFileHeader(lines[position])
    requires ParseHunks(lines, start) == Prepend(hunks, ParseHunks(lines, position))
    ensures var parsed := ParseHunk(lines, position);
            ParseHunks(lines, start)
            == if parsed.None? then None else Prepend(hunks + [parsed.value.value], ParseHunks(lines, parsed.value.position))
  {
    hide ParseHunk, IsFileHeader;
    var parsed := ParseHunk(lines, position);
    if parsed.Some? {
      var rest := ParseHunks(lines, parsed.value.position);
      if rest.Some? {
        assert hunks + ([parsed.value.value] + rest.value.value) == hunks + [parsed.value.value] + rest.value.value;
      }
    }
  }

  lemma RefusedAnyway(lines: Lines, start: nat, original: Lines, hunks: seq<Hunk>, next: Option<Parsed<Hunk>>)
    requires ParseHunks(lines, start)
             == if next.None? then None else Prepend(hunks + [next.value.value], ParseHunks(lines, next.value.position))
    requires next.Some? ==> Advance(original, hunks + [next.value.value], |hunks| + 1).None?
    ensures ReplayedFile(original, ParseHunks(lines, start)).None?
  {
    hide ParseHunks, Advance, Apply;
    if next.Some? {
      var rest := ParseHunks(lines, next.value.position);
      if rest.Some? {
        MisfitStays(original, hunks, next.value.value, rest.value.value);
      }
    }
  }

  /** What a hunk's replay says about the hunk. */
  lemma HunkOutcome(lines: Lines, position: nat, original: Lines, at: Progress, header: HunkHeader)
    requires position < |lines| && ReadHunkHeader(lines[position]) == Some(header)
    requires at.consumed <= |original|
    ensures var target := if header.oldCount > 0 then header.oldStart - 1 else header.oldStart;
            var body := ParseOps(lines, position + 1, header.oldCount, header.newCount);
            var parsed := ParseHunk(lines, position);
            && parsed.Some? == body.Some?
            && (parsed.Some? ==>
                  && parsed.value.position == body.value.position
                  && ApplyHunk(original, at, parsed.value.value)
                     == if target < at.consumed || target > |original| then None else
                        var replay := Replayed(original, target, body);
                        if replay.None? then None else
                        Some(Progress(at.output + original[at.consumed..target] + replay.value.output, replay.value.consumed)))
  {
    hide ReadHunkHeader, ParseOps, Old, New;
    if ParseOps(lines, position + 1, header.oldCount, header.newCount).Some? {
      ParseOpsCounts(lines, position + 1, header.oldCount, header.newCount);
    }
  }

  /** The hunks of one file, applied while they are read. */
  method ReplayFile(lines: Lines, start: nat, original: Lines) returns (r: Option<FileReplay>)
    ensures r == ReplayedFile(original, ParseHunks(lines, start))
    ensures r.Some? ==> start <= r.value.position
  {
    hide ReadHunkHeader, ParseHunks, ParseHunk, ParseOps, ApplyHunk, Replayed, IsFileHeader;
    var output: Lines, consumed, position, sawHunk := [], 0, start, false;
    ghost var hunks: seq<Hunk> := [];
    NoHunks(lines, start);
    while position < |lines| && !IsFileHeader(lines[position])
      invariant start <= position && 0 <= consumed
      invariant ParseHunks(lines, start) == Prepend(hunks, ParseHunks(lines, position))
      invariant Advance(original, hunks, |hunks|) == Some(Progress(output, consumed)) && consumed <= |original|
      invariant sawHunk <==> hunks != []
      decreases |lines| - position
    {
      ghost var next := ParseHunk(lines, position);
      ParseHunksNext(lines, start, position, hunks);
      var header := ReadHunkHeader(lines[position]);
      if header.None? {
        NoHeader(lines, position);
        return None;
      }
      sawHunk := true;
      var HunkHeader(oldStart, oldCount, newCount) := header.value;
      var target := if oldCount > 0 then oldStart - 1 else oldStart;
      HunkOutcome(lines, position, original, Progress(output, consumed), header.value);
      if next.Some? {
        AdvanceOne(original, hunks, next.value.value);
      }
      if target < consumed || target > |original| {
        RefusedAnyway(lines, start, original, hunks, next);
        return None;
      }
      output := output + original[consumed..target];
      var replay := ReplayHunk(lines, position + 1, original, target, oldCount, newCount);
      if replay.None? {
        ReplayedNone(original, target, ParseOps(lines, position + 1, oldCount, newCount));
        RefusedAnyway(lines, start, original, hunks, next);
        return None;
      }
      ReplayedSome(original, target, ParseOps(lines, position + 1, oldCount, newCount));
      output := output + replay.value.output;
      consumed := replay.value.consumed;
      position := replay.value.position;
      hunks := hunks + [next.value.value];
    }
    ParseNoHunks(lines, position);
    assert hunks + [] == hunks;
    if !sawHunk {
      return None;
    }
    return Some(FileReplay(output + original[consumed..], position));
  }

  lemma ReplayedNone(original: Lines, target: nat, body: Option<Parsed<seq<Op>>>)
    ensures Replayed(original, target, body).None? && body.Some? ==> !Matches(original, target, body.value.value)
  {
  }

  lemma ReplayedSome(original: Lines, target: nat, body: Option<Parsed<seq<Op>>>)
    ensures Replayed(original, target, body).Some? ==>
              body.Some? && Replayed(original, target, body).value.position == body.value.position
  {
  }

  lemma NoHunks(lines: Lines, start: nat)
    ensures var all := ParseHunks(lines, start); all == Prepend([], all)
  {
    var all := ParseHunks(lines, start);
    if all.Some? {
      assert [] + all.value.value == all.value.value;
    }
  }

  lemma NoHeader(lines: Lines, position: nat)
    requires position < |lines| && ReadHunkHeader(lines[position]).None?
    ensures ParseHunk(lines, position).None?
  {
  }

  // ---- A whole diff ----

  function PrependSections(front: seq<Section>, rest: Option<seq<Section>>): Option<seq<Section>> {
    if rest.None? then None else Some(front + rest.value)
  }

  lemma {:induction false} EditsOfEach(policy: Policy, tree: Tree, ss: seq<Section>)
    ensures var edits := EditsOf(policy, tree, ss);
            && (edits.Some? <==> forall i :: 0 <= i < |ss| ==> EditOf(policy, tree, ss[i]).Some?)
            && (edits.Some? ==>
                  && |edits.value| == |ss|
                  && forall i :: 0 <= i < |ss| ==> EditOf(policy, tree, ss[i]) == Some(edits.value[i]))
  {
    hide EditOf;
    if ss != [] {
      EditsOfEach(policy, tree, ss[1..]);
      assert forall i :: 1 <= i < |ss| ==> ss[i] == ss[1..][i - 1];
    }
  }

  lemma EditsOfNext(policy: Policy, tree: Tree, ss: seq<Section>, s: Section, edits: seq<Edit>)
    requires EditsOf(policy, tree, ss) == Some(edits) && EditOf(policy, tree, s).Some?
    ensures EditsOf(policy, tree, ss + [s]) == Some(edits + [EditOf(policy, tree, s).value])
  {
    hide EditOf, EditsOf;
    EditsOfEach(policy, tree, ss);
    EditsOfEach(policy, tree, ss + [s]);
    assert forall i :: 0 <= i < |ss| ==> (ss + [s])[i] == ss[i];
    assert (ss + [s])[|ss|] == s;
    assert EditsOf(policy, tree, ss + [s]).value == edits + [EditOf(policy, tree, s).value];
  }

  lemma EditsOfFails(policy: Policy, tree: Tree, ss: seq<Section>, s: Section, more: seq<Section>)
    requires EditOf(policy, tree, s).None?
    ensures EditsOf(policy, tree, ss + [s] + more).None?
  {
    hide EditOf, EditsOf;
    EditsOfEach(policy, tree, ss + [s] + more);
    assert (ss + [s] + more)[|ss|] == s;
  }

  /** The next section, and what it settles about the whole diff. */
  lemma NextSection(policy: Policy, tree: Tree, lines: Lines, position: nat, ss: seq<Section>, edits: seq<Edit>)
    requires position < |lines|
    requires ParseSections(policy, lines, 0) == PrependSections(ss, ParseSections(policy, lines, position))
    requires EditsOf(policy, tree, ss) == Some(edits)
    ensures var next := ParseSection(policy, lines, position);
            var whole := ParseSections(policy, lines, 0);
            && (next.None? ==> whole.None?)
            && (next.Some? && EditOf(policy, tree, next.value.value).None? ==>
                  whole.None? || EditsOf(policy, tree, whole.value).None?)
            && (next.Some? && EditOf(policy, tree, next.value.value).Some? ==>
                  && whole == PrependSections(ss + [next.value.value], ParseSections(policy, lines, next.value.position))
                  && EditsOf(policy, tree, ss + [next.value.value])
                     == Some(edits + [EditOf(policy, tree, next.value.value).value]))
  {
    hide ParseSection, EditOf, EditsOf;
    var next := ParseSection(policy, lines, position);
    if next.Some? {
      var s, rest := next.value.value, ParseSections(policy, lines, next.value.position);
      if rest.Some? {
        assert ss + ([s] + rest.value) == ss + [s] + rest.value;
        if EditOf(policy, tree, s).None? {
          EditsOfFails(policy, tree, ss, s, rest.value);
        }
      }
      if EditOf(policy, tree, s).Some? {
        EditsOfNext(policy, tree, ss, s, edits);
      }
    }
  }

  /** More edits than a prefix already has, one too many included. */
  lemma TooMany(policy: Policy, tree: Tree, lines: Lines, position: nat, ss: seq<Section>)
    requires ParseSections(policy, lines, 0) == PrependSections(ss, ParseSections(policy, lines, position))
    requires |ss| > MAX_PATCH_FILES
    ensures var whole := ParseSections(policy, lines, 0); whole.Some? ==> |whole.value| > MAX_PATCH_FILES
  {
    hide ParseSections;
  }

  /** A whole diff, each file patched while its section is read. */
  method ParsePatch(policy: Policy, tree: Tree, fold: string -> string, lines: Lines) returns (r: Option<seq<Edit>>)
    ensures r == EditsOfText(policy, tree, fold, lines)
  {
    hide ParsePaths, ParseHunks, ParseSections, EditsOf, SectionPath, Apply, PathsAgree;
    if !TextAllowed(lines) {
      return None;
    }
    var edits: seq<Edit>, position := [], 0;
    ghost var ss: seq<Section> := [];
    NoSections(policy, tree, lines);
    while position < |lines|
      invariant 0 <= position && |edits| == |ss| <= MAX_PATCH_FILES
      invariant ParseSections(policy, lines, 0) == PrependSections(ss, ParseSections(policy, lines, position))
      invariant EditsOf(policy, tree, ss) == Some(edits)
      decreases |lines| - position
    {
      NextSection(policy, tree, lines, position, ss, edits);
      var paths := ParsePaths(policy, lines, position);
      if paths.None? {
        return None;
      }
      AgreedPath(policy, lines, position);
      var path := SectionPath(policy, paths.value).value;
      if paths.value.oldPath.Some? && path !in tree {
        MissingSource(policy, tree, lines, position);
        return None;
      }
      var before := if paths.value.oldPath.Some? then Some(tree[path]) else None;
      var original := if before.Some? then before.value else [];
      SectionOutcome(policy, tree, lines, position, before);
      var replay := ReplayFile(lines, position + 2, original);
      if replay.None? {
        return None;
      }
      var after := if paths.value.newPath.Some? then Some(replay.value.output) else None;
      if after.Some? && ByteSize(after.value) > MAX_FILE_BYTES {
        return None;
      }
      ss := ss + [ParseSection(policy, lines, position).value.value];
      edits := edits + [Edit(path, before, after)];
      position := replay.value.position;
      if |edits| > MAX_PATCH_FILES {
        TooMany(policy, tree, lines, position, ss);
        return None;
      }
    }
    AllRead(policy, lines, position, ss);
    if !Distinct(fold, Paths(edits)) {
      return None;
    }
    return Some(edits);
  }

  lemma NoSections(policy: Policy, tree: Tree, lines: Lines)
    ensures var all := ParseSections(policy, lines, 0); all == PrependSections([], all)
    ensures EditsOf(policy, tree, []) == Some([])
  {
    hide ParseSections;
    var all := ParseSections(policy, lines, 0);
    if all.Some? {
      assert [] + all.value == all.value;
    }
  }

  lemma AllRead(policy: Policy, lines: Lines, position: nat, ss: seq<Section>)
    requires position >= |lines|
    ensures PrependSections(ss, ParseSections(policy, lines, position)) == Some(ss)
  {
    assert ss + [] == ss;
  }

  lemma AgreedPath(policy: Policy, lines: Lines, position: nat)
    requires position < |lines| && ParsePaths(policy, lines, position).Some?
    ensures var s := ParsePaths(policy, lines, position).value; s.hunks == [] && SectionPath(policy, s).Some?
  {
    hide HeaderPath;
  }

  lemma MissingSource(policy: Policy, tree: Tree, lines: Lines, position: nat)
    requires position < |lines| && ParsePaths(policy, lines, position).Some?
    requires var s := ParsePaths(policy, lines, position).value;
             s.oldPath.Some? && SectionPath(policy, s).Some? && SectionPath(policy, s).value !in tree
    ensures var next := ParseSection(policy, lines, position);
            next.Some? ==> EditOf(policy, tree, next.value.value).None?
  {
    hide ParsePaths, ParseHunks, Apply;
  }

  /** The section and its edit, from the replay of its hunks. */
  lemma SectionOutcome(policy: Policy, tree: Tree, lines: Lines, position: nat, before: Option<Lines>)
    requires position < |lines| && ParsePaths(policy, lines, position).Some?
    requires var s := ParsePaths(policy, lines, position).value;
             var path := SectionPath(policy, s);
             && path.Some? && (s.oldPath.Some? ==> path.value in tree)
             && before == if s.oldPath.Some? then Some(tree[path.value]) else None
    ensures var s := ParsePaths(policy, lines, position).value;
            var path := SectionPath(policy, s).value;
            var next := ParseSection(policy, lines, position);
            var replay := ReplayedFile(if before.Some? then before.value else [], ParseHunks(lines, position + 2));
            var edit := if next.None? then None else EditOf(policy, tree, next.value.value);
            && (replay.None? ==> edit.None?)
            && (replay.Some? ==>
                  && next.Some? && next.value.position == replay.value.position
                  && edit == if s.newPath.None? then Some(Edit(path, before, None))
                             else if ByteSize(replay.value.output) > MAX_FILE_BYTES then None
                             else Some(Edit(path, before, Some(replay.value.output))))
  {
    hide ParsePaths, ParseHunks, Apply, ByteSize;
  }

  // ---- The tool ----

  /** What the tool takes from its surroundings: the path policy, the case
      folding of names, content digests and the summed size of a tree. */
  datatype Surroundings = Surroundings(policy: Policy, fold: string -> string,
                                       digest: Lines -> string, treeDigest: Tree -> string, treeBytes: Tree -> nat)

  /** The expected digest of every named file, by its permitted path. */
  function Expectations(policy: Policy, named: seq<(string, Option<string>)>): Option<map<string, Option<string>>> {
    if named == [] then Some(map[]) else
    var earlier := Expectations(policy, named[..|named| - 1]);
    var (path, digest) := named[|named| - 1];
    var admitted := policy.admit(path);
    if earlier.None? || admitted.None? then None else Some(earlier.value[admitted.value := digest])
  }

  /** The expectations name exactly the edited files, each with the digest of
      its present content, or with none when the diff starts from no file. */
  predicate Expected(env: Surroundings, expected: map<string, Option<string>>, edits: seq<Edit>) {
    && expected.Keys == (set e <- edits :: e.path)
    && forall e <- edits ::
         expected[e.path] == if e.before.None? then None else Some(env.digest(e.before.value))
  }

  predicate TreeAllowed(env: Surroundings, tree: Tree) {
    && (forall p, q :: p in tree && q in tree && p != q ==> env.fold(p) != env.fold(q))
    && |tree| <= MAX_FILES && env.treeBytes(tree) <= MAX_TREE_BYTES
  }

  function ApplyEdit(tree: Tree, e: Edit): Tree {
    if e.after.None? then tree - {e.path} else tree[e.path := e.after.value]
  }

  /** The edits a request may perform, when every guard lets it. */
  function Permitted(env: Surroundings, tree: Tree, busy: bool, lines: Lines, expectedTree: string,
                     named: seq<(string, Option<string>)>): Option<seq<Edit>> {
    if busy || env.treeDigest(tree) != expectedTree then None else
    var edits := EditsOfText(env.policy, tree, env.fold, lines);
    var expected := Expectations(env.policy, named);
    if edits.None? || expected.None? || !Expected(env, expected.value, edits.value) then None else
    if TreeAllowed(env, Project(tree, edits.value)) then edits else None
  }

  datatype PatchResult = PatchResult(before: string, after: string,
                                     added: set<string>, modified: set<string>, deleted: set<string>)

  class WorkspaceTools {
    const env: Surroundings
    var tree: Tree
    var busy: bool

    constructor (env: Surroundings, tree: Tree)
      ensures this.env == env && this.tree == tree && !busy
    {
      this.env, this.tree, busy := env, tree, false;
    }

    /** A verification command takes the workspace for itself. */
    method BeginCommand(expectedTree: string) returns (ok: bool)
      modifies this`busy
      ensures ok <==> !old(busy) && env.treeDigest(tree) == expectedTree
      ensures busy == (old(busy) || ok)
    {
      ok := !busy && env.treeDigest(tree) == expectedTree;
      if ok {
        busy := true;
      }
    }

    method EndCommand()
      modifies this`busy
      ensures !busy
    {
      busy := false;
    }

    /** Applies a diff. `writes` is how many file rewrites the storage completes
        before it fails, if it fails. A refused request changes nothing; a
        storage failure leaves exactly the edits already written. */
    method ApplyPatch(lines: Lines, expectedTree: string, named: seq<(string, Option<string>)>, writes: nat)
      returns (r: Result<PatchResult>)
      modifies this`tree
      ensures var edits := Permitted(env, old(tree), busy, lines, expectedTree, named);
              && (edits.None? ==> r.Refused? && tree == old(tree))
              && (edits.Some? && writes < |edits.value| ==>
                    r == Refused("WORKSPACE_IO") && tree == Project(old(tree), edits.value[..writes]))
              && (edits.Some? && writes >= |edits.value| ==>
                    && r.Ok? && tree == Project(old(tree), edits.value)
                    && r.value.before == expectedTree && r.value.after == env.treeDigest(tree)
                    && r.value.added == (set e <- edits.value | e.before.None? :: e.path)
                    && r.value.deleted == (set e <- edits.value | e.after.None? :: e.path)
                    && r.value.modified == (set e <- edits.value | e.before.Some? && e.after.Some? :: e.path))
    {
      hide EditsOfText, Expectations, Expected, TreeAllowed;
      if busy {
        return Refused("WORKSPACE_BUSY");
      }
      if env.treeDigest(tree) != expectedTree {
        return Refused("WORKSPACE_CHANGED");
      }
      var parsed := ParsePatch(env.policy, tree, env.fold, lines);
      if parsed.None? {
        return Refused("PATCH_FORMAT");
      }
      var edits := parsed.value;
      var expected := Expectations(env.policy, named);
      if expected.None? || !Expected(env, expected.value, edits) {
        return Refused("PATCH_EXPECTATION");
      }
      var projected := tree;
      for i := 0 to |edits|
        invariant tree == old(tree) && projected == Project(tree, edits[..i])
      {
        ProjectNext(tree, edits, i);
        projected := ApplyEdit(projected, edits[i]);
      }
      assert edits[..|edits|] == edits;
      if !TreeAllowed(env, projected) {
        return Refused("WORKSPACE_SIZE");
      }
      for i := 0 to |edits|
        invariant i <= writes
        invariant tree == Project(old(tree), edits[..i])
      {
        if i == writes {
          return Refused("WORKSPACE_IO");
        }
        ProjectNext(old(tree), edits, i);
        tree := ApplyEdit(tree, edits[i]);
      }
      return Ok(PatchResult(expectedTree, env.treeDigest(tree),
                            set e <- edits | e.before.None? :: e.path,
                            set e <- edits | e.before.Some? && e.after.Some? :: e.path,
                            set e <- edits | e.after.None? :: e.path));
    }
  }

  lemma ProjectNext(tree: Tree, edits: seq<Edit>, i: nat)
    requires i < |edits|
    ensures Project(tree, edits[..i + 1]) == ApplyEdit(Project(tree, edits[..i]), edits[i])
  {
    assert edits[..i + 1][..i] == edits[..i];
  }

  // ---- What a patch changes, and undoing it ----

  /** Files that no edit names keep their content; each edited file has exactly
      what its edit says. */
  lemma {:induction false} ProjectChanges(tree: Tree, edits: seq<Edit>)
    requires forall i, j :: 0 <= i < j < |edits| ==> edits[i].path != edits[j].path
    ensures var result := Project(tree, edits);
            && (forall p :: p !in Paths(edits) ==> (p in result <==> p in tree) && (p in tree ==> result[p] == tree[p]))
            && (forall e <- edits :: (e.path in result <==> e.after.Some?)
                                     && (e.after.Some? ==> result[e.path] == e.after.value))
  {
    if edits != [] {
      var earlier, last := edits[..|edits| - 1], edits[|edits| - 1];
      ProjectChanges(tree, earlier);
      assert Paths(edits) == Paths(earlier) + [last.path];
      assert edits == earlier + [last];
    }
  }

  lemma DistinctPaths(fold: string -> string, edits: seq<Edit>)
    requires Distinct(fold, Paths(edits))
    ensures forall i, j :: 0 <= i < j < |edits| ==> edits[i].path != edits[j].path
  {
    forall i, j | 0 <= i < j < |edits|
      ensures edits[i].path != edits[j].path
    {
      assert fold(Paths(edits)[i]) != fold(Paths(edits)[j]);
    }
  }

  predicate IsChange(s: Section) {
    s.oldPath.Some? && s.newPath.Some? && s.oldPath == s.newPath
  }

  /** Files are read only up to the size limit. */
  predicate Readable(tree: Tree) {
    forall p <- tree :: ByteSize(tree[p]) <= MAX_FILE_BYTES
  }

  /** The swapped section of a change undoes its edit. */
  lemma SwapEdit(policy: Policy, tree: Tree, later: Tree, s: Section)
    requires IsChange(s) && Readable(tree) && EditOf(policy, tree, s).Some?
    requires var e := EditOf(policy, tree, s).value; e.path in later && later[e.path] == e.after.value
    ensures var e := EditOf(policy, tree, s).value;
            && e.before.Some? && e.before.value == tree[e.path]
            && EditOf(policy, later, Swap(s)) == Some(Edit(e.path, e.after, e.before))
  {
    hide Apply, ByteSize, SwapHunks;
    SwapUndoes(tree[EditOf(policy, tree, s).value.path], s.hunks);
  }

  function SwapAll(ss: seq<Section>): (r: seq<Section>)
    ensures |r| == |ss| && forall i :: 0 <= i < |ss| ==> r[i] == Swap(ss[i])
  {
    seq(|ss|, i requires 0 <= i < |ss| => Swap(ss[i]))
  }

  /** The edits of the way back restore, one by one, what the edits changed. */
  predicate Undoes(tree: Tree, edits: seq<Edit>, back: seq<Edit>) {
    && |back| == |edits|
    && forall i :: 0 <= i < |edits| ==>
         && edits[i].before.Some? && edits[i].after.Some? && edits[i].path in tree
         && edits[i].before.value == tree[edits[i].path]
         && back[i] == Edit(edits[i].path, edits[i].after, edits[i].before)
  }

  lemma UndoneTree(tree: Tree, edits: seq<Edit>, back: seq<Edit>)
    requires Undoes(tree, edits, back)
    requires forall i, j :: 0 <= i < j < |edits| ==> edits[i].path != edits[j].path
    ensures Paths(back) == Paths(edits)
    ensures Project(Project(tree, edits), back) == tree
  {
    hide Project;
    var later := Project(tree, edits);
    assert Paths(back) == Paths(edits);
    ProjectChanges(tree, edits);
    ProjectChanges(later, back);
    var result := Project(later, back);
    forall p
      ensures (p in result <==> p in tree) && (p in tree ==> result[p] == tree[p])
    {
      if p in Paths(edits) {
        var i :| 0 <= i < |edits| && Paths(edits)[i] == p;
        assert back[i] in back;
      }
    }
  }

  lemma EditUndone(policy: Policy, tree: Tree, ss: seq<Section>, i: nat)
    requires Readable(tree) && i < |ss| && IsChange(ss[i]) && EditsOf(policy, tree, ss).Some?
    requires var edits := EditsOf(policy, tree, ss).value;
             forall i, j :: 0 <= i < j < |edits| ==> edits[i].path != edits[j].path
    ensures var edits := EditsOf(policy, tree, ss).value;
            && i < |edits| && edits[i].before.Some? && edits[i].after.Some? && edits[i].path in tree
            && edits[i].before.value == tree[edits[i].path]
            && EditOf(policy, Project(tree, edits), Swap(ss[i])) == Some(Edit(edits[i].path, edits[i].after, edits[i].before))
  {
    hide EditOf, EditsOf, Swap, Project, Readable;
    var edits := EditsOf(policy, tree, ss).value;
    EditsOfEach(policy, tree, ss);
    ProjectChanges(tree, edits);
    ChangeKeeps(policy, tree, ss[i]);
    assert edits[i] in edits;
    SwapEdit(policy, tree, Project(tree, edits), ss[i]);
  }

  /** Undoing a diff that changes files: the swapped diff, applied to the patched
      tree, is accepted and gives the original tree back. */
  lemma SwappedDiffRestores(policy: Policy, fold: string -> string, tree: Tree, ss: seq<Section>)
    requires Readable(tree) && forall s <- ss :: IsChange(s)
    requires EditsOf(policy, tree, ss).Some? && Distinct(fold, Paths(EditsOf(policy, tree, ss).value))
    ensures var later := Project(tree, EditsOf(policy, tree, ss).value);
            var back := EditsOf(policy, later, SwapAll(ss));
            && back.Some? && Distinct(fold, Paths(back.value))
            && Project(later, back.value) == tree
  {
    hide EditOf, EditsOf, Swap, Project, Readable, IsChange, Paths, Distinct;
    var edits := EditsOf(policy, tree, ss).value;
    var later := Project(tree, edits);
    EditsOfEach(policy, tree, ss);
    DistinctPaths(fold, edits);
    forall i | 0 <= i < |ss|
      ensures edits[i].before.Some? && edits[i].after.Some? && edits[i].path in tree
      ensures edits[i].before.value == tree[edits[i].path]
      ensures EditOf(policy, later, SwapAll(ss)[i]) == Some(Edit(edits[i].path, edits[i].after, edits[i].before))
    {
      EditUndone(policy, tree, ss, i);
    }
    EditsOfEach(policy, later, SwapAll(ss));
    UndoneTree(tree, edits, EditsOf(policy, later, SwapAll(ss)).value);
  }

  lemma ChangeApplies(policy: Policy, tree: Tree, s: Section)
    requires IsChange(s) && EditOf(policy, tree, s).Some?
    ensures Apply(tree[EditOf(policy, tree, s).value.path], s.hunks).Some?
  {
    hide Apply;
  }

  lemma SwappedPrintable(policy: Policy, tree: Tree, ss: seq<Section>)
    requires AllPrintable(policy, ss) && (forall s <- ss :: IsChange(s)) && EditsOf(policy, tree, ss).Some?
    ensures AllPrintable(policy, SwapAll(ss))
  {
    hide EditOf, EditsOf, SwapHunks, PlainPath;
    EditsOfEach(policy, tree, ss);
    forall i | 0 <= i < |ss|
      ensures Printable(policy, SwapAll(ss)[i]) && Startable(SwapAll(ss)[i].hunks)
    {
      assert Printable(policy, ss[i]) && IsChange(ss[i]);
      ChangeKeeps(policy, tree, ss[i]);
      ChangeApplies(policy, tree, ss[i]);
      SwapStarts(tree[EditOf(policy, tree, ss[i]).value.path], ss[i].hunks);
    }
  }

  /** The same on the text: printing the swapped sections of a diff that changes
      files gives a diff that, size permitting, is accepted on the patched tree and
      restores the original one. */
  lemma SwappedTextRestores(policy: Policy, fold: string -> string, tree: Tree, ss: seq<Section>, newStart: Hunk -> nat)
    requires Readable(tree) && AllPrintable(policy, ss) && forall s <- ss :: IsChange(s)
    requires EditsOf(policy, tree, ss).Some? && Distinct(fold, Paths(EditsOf(policy, tree, ss).value))
    ensures AllPrintable(policy, SwapAll(ss))
    ensures var text := PrintSections(SwapAll(ss), newStart);
            var later := Project(tree, EditsOf(policy, tree, ss).value);
            TextAllowed(text) && |ss| <= MAX_PATCH_FILES ==>
              var back := EditsOfText(policy, later, fold, text);
              back.Some? && Project(later, back.value) == tree
  {
    hide EditOf, EditsOf, Project, Readable, IsChange, Printable, PrintSections, ParseSections, TextAllowed, Distinct;
    SwappedPrintable(policy, tree, ss);
    PrintThenParse(policy, SwapAll(ss), newStart);
    SwappedDiffRestores(policy, fold, tree, ss);
  }

  lemma ChangeKeeps(policy: Policy, tree: Tree, s: Section)
    requires IsChange(s) && EditOf(policy, tree, s).Some?
    ensures var e := EditOf(policy, tree, s).value;
            e.before.Some? && e.after.Some? && e.path in tree && e.before.value == tree[e.path]
  {
    hide Apply;
  }

  /** Undoing a creation by the swapped section restores the tree exactly when
      no file was there: the reader starts from no lines either way. */
  lemma CreationUndone(policy: Policy, tree: Tree, s: Section)
    requires s.oldPath.None? && s.newPath.Some? && EditOf(policy, tree, s).Some?
    ensures var e := EditOf(policy, tree, s).value;
            var later := Project(tree, [e]);
            var back := EditOf(policy, later, Swap(s));
            && back.Some?
            && (Project(later, [back.value]) == tree <==> e.path !in tree)
  {
    hide Apply, ByteSize, SwapHunks;
    var e := EditOf(policy, tree, s).value;
    SwapUndoes([], s.hunks);
    ProjectOne(tree, e);
    var later := Project(tree, [e]);
    ProjectOne(later, EditOf(policy, later, Swap(s)).value);
  }

  lemma ProjectOne(tree: Tree, e: Edit)
    ensures Project(tree, [e]) == ApplyEdit(tree, e)
  {
    assert [e][..0] == [];
  }

  /** Undoing a deletion by the swapped section restores the tree exactly when no
      hunk of it has a new line and its old lines add up to the file. */
  lemma DeletionUndone(policy: Policy, tree: Tree, s: Section)
    requires s.oldPath.Some? && s.newPath.None? && Readable(tree) && EditOf(policy, tree, s).Some?
    ensures var e := EditOf(policy, tree, s).value;
            var later := Project(tree, [e]);
            var back := EditOf(policy, later, Swap(s));
            (back.Some? && Project(later, [back.value]) == tree) <==>
              (forall h <- s.hunks :: New(h.ops) == []) && OldLines(s.hunks, |s.hunks|) == |tree[e.path]|
  {
    hide Apply, ByteSize, SwapHunks, OldLines, New;
    var e := EditOf(policy, tree, s).value;
    var original := tree[e.path];
    LeavesNothing(original, s.hunks);
    SwapUndoes(original, s.hunks);
    ProjectOne(tree, e);
    var later := Project(tree, [e]);
    var back := EditOf(policy, later, Swap(s));
    if back.Some? {
      ProjectOne(later, back.value);
      if Project(later, [back.value]) == tree {
        assert back.value.after == Some(original);
        SwapFromNothing(original, s.hunks);
      }
    }
  }

  /** If the swapped hunks build the original from nothing, the hunks had left
      nothing of it. */
  lemma SwapFromNothing(original: Lines, hunks: seq<Hunk>)
    requires Apply(original, hunks).Some? && Apply([], SwapHunks(hunks)) == Some(original)
    ensures Apply(original, hunks) == Some([])
  {
    hide Apply, SwapHunks;
    SwapUndoes([], SwapHunks(hunks));
    SwapUndoes(original, hunks);
    SwapLength([], SwapHunks(hunks));
    SwapLength(original, hunks);
    SwapShift(hunks);
  }

  /** Applying hunks changes the number of lines by their shift. */
  lemma SwapLength(original: Lines, hunks: seq<Hunk>)
    requires Apply(original, hunks).Some?
    ensures |Apply(original, hunks).value| == |original| + Shift(hunks, |hunks|)
  {
    hide Apply;
    var gaps := ApplySplits(original, hunks);
    ShiftMeasures(hunks, gaps, |hunks|);
  }

  lemma SwapShift(hunks: seq<Hunk>)
    ensures Shift(SwapHunks(hunks), |hunks|) == -Shift(hunks, |hunks|)
  {
    SwapShiftTo(hunks, |hunks|);
  }

  lemma {:induction false} SwapShiftTo(hunks: seq<Hunk>, n: nat)
    requires n <= |hunks|
    ensures Shift(SwapHunks(hunks), n) == -Shift(hunks, n)
  {
    hide Old, New, SwapOps;
    if n > 0 {
      SwapShiftTo(hunks, n - 1);
      SwapOpsSides(hunks[n - 1].ops);
    }
  }
}
