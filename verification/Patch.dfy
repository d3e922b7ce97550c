/** Strict unified diffs: their text form, their effect on a file, and why the
    swapped diff undoes them. Lines keep their newline. */
module Patch {
  import opened Results

  /** One line of a hunk body: kept, removed or inserted. */
  datatype Op = Keep(text: string) | Remove(text: string) | Insert(text: string)
  {
    function Swapped(): Op {
      match this
      case Keep(t) => Keep(t)
      case Remove(t) => Insert(t)
      case Insert(t) => Remove(t)
    }
  }

  function Old(ops: seq<Op>): seq<string> {
    if ops == [] then [] else (if ops[0].Insert? then [] else [ops[0].text]) + Old(ops[1..])
  }

  function New(ops: seq<Op>): seq<string> {
    if ops == [] then [] else (if ops[0].Remove? then [] else [ops[0].text]) + New(ops[1..])
  }

  /** A hunk: the first old line its header names, and its body. */
  datatype Hunk = Hunk(start: int, ops: seq<Op>)
  {
    /** The number of old lines before the hunk. An empty old side is addressed
        by the line before it, any other by its own first line. */
    function Target(): int {
      if Old(ops) != [] then start - 1 else start
    }
  }

  /** The part of a diff about one file; an absent path is `/dev/null`. */
  datatype Section = Section(oldPath: Option<string>, newPath: Option<string>, hunks: seq<Hunk>)

  // ---- The effect of hunks on the lines of a file ----

  /** The output so far and the number of old lines used up. */
  datatype Progress = Progress(output: seq<string>, consumed: nat)

  /** Where the first `n` hunks bring a file, if they fit it. */
  function Advance(original: seq<string>, hunks: seq<Hunk>, n: nat): (r: Option<Progress>)
    requires n <= |hunks|
    ensures r.Some? ==> r.value.consumed <= |original|
  {
    if n == 0 then Some(Progress([], 0)) else
    var before := Advance(original, hunks, n - 1);
    if before.None? then None else ApplyHunk(original, before.value, hunks[n - 1])
  }

  function ApplyHunk(original: seq<string>, before: Progress, hunk: Hunk): (r: Option<Progress>)
    requires before.consumed <= |original|
    ensures r.Some? ==> r.value.consumed <= |original|
  {
    var from, taken := hunk.Target(), Old(hunk.ops);
    if from < before.consumed || from + |taken| > |original| || original[from..from + |taken|] != taken then None else
    Some(Progress(before.output + original[before.consumed..from] + New(hunk.ops), from + |taken|))
  }

  /** The patched lines, or nothing if some hunk does not fit. */
  function Apply(original: seq<string>, hunks: seq<Hunk>): Option<seq<string>> {
    var end := Advance(original, hunks, |hunks|);
    if end.None? then None else Some(end.value.output + original[end.value.consumed..])
  }

  // ---- Gaps and blocks ----

  /** The first `n` gaps, each followed by its block. */
  ghost function Woven(gaps: seq<seq<string>>, blocks: seq<seq<string>>, n: nat): seq<string>
    requires n <= |gaps| && n <= |blocks|
  {
    if n == 0 then [] else Woven(gaps, blocks, n - 1) + gaps[n - 1] + blocks[n - 1]
  }

  ghost function OldBlocks(hunks: seq<Hunk>): (bs: seq<seq<string>>)
    ensures |bs| == |hunks| && forall i :: 0 <= i < |hunks| ==> bs[i] == Old(hunks[i].ops)
  {
    seq(|hunks|, i requires 0 <= i < |hunks| => Old(hunks[i].ops))
  }

  ghost function NewBlocks(hunks: seq<Hunk>): (bs: seq<seq<string>>)
    ensures |bs| == |hunks| && forall i :: 0 <= i < |hunks| ==> bs[i] == New(hunks[i].ops)
  {
    seq(|hunks|, i requires 0 <= i < |hunks| => New(hunks[i].ops))
  }

  /** Each hunk is addressed where its old lines stand. */
  ghost predicate Addressed(gaps: seq<seq<string>>, hunks: seq<Hunk>)
    requires |gaps| == |hunks| + 1
  {
    forall i :: 0 <= i < |hunks| ==> |Woven(gaps, OldBlocks(hunks), i)| + |gaps[i]| == hunks[i].Target()
  }

  /** Old and new lines are the same gaps around the hunks' old and new lines. */
  ghost predicate Splits(original: seq<string>, hunks: seq<Hunk>, gaps: seq<seq<string>>, result: seq<string>) {
    var n := |hunks|;
    && |gaps| == n + 1
    && original == Woven(gaps, OldBlocks(hunks), n) + gaps[n]
    && result == Woven(gaps, NewBlocks(hunks), n) + gaps[n]
    && Addressed(gaps, hunks)
  }

  lemma {:induction false} AdvanceEarlier(original: seq<string>, hunks: seq<Hunk>, i: nat, n: nat)
    requires i <= n <= |hunks| && Advance(original, hunks, n).Some?
    ensures Advance(original, hunks, i).Some?
  {
    if i < n {
      AdvanceEarlier(original, hunks, i, n - 1);
    }
  }

  /** The old lines skipped before hunk `i`. */
  ghost function GapBefore(original: seq<string>, hunks: seq<Hunk>, i: nat): seq<string>
    requires i < |hunks| && Advance(original, hunks, i + 1).Some?
  {
    original[Advance(original, hunks, i).value.consumed..hunks[i].Target()]
  }

  ghost predicate IsGap(original: seq<string>, hunks: seq<Hunk>, i: nat, gap: seq<string>)
    requires i < |hunks|
  {
    Advance(original, hunks, i + 1).Some? && gap == GapBefore(original, hunks, i)
  }

  lemma StepWoven(original: seq<string>, before: Progress, hunk: Hunk, gap: seq<string>)
    requires before.consumed <= |original|
    requires ApplyHunk(original, before, hunk).Some?
    requires gap == original[before.consumed..hunk.Target()]
    ensures var after := ApplyHunk(original, before, hunk).value;
            && original[..after.consumed] == original[..before.consumed] + gap + Old(hunk.ops)
            && after.output == before.output + gap + New(hunk.ops)
            && before.consumed + |gap| == hunk.Target()
  {
    hide Old, New;
  }

  lemma {:induction false} AdvanceWoven(original: seq<string>, hunks: seq<Hunk>, n: nat, gaps: seq<seq<string>>)
    requires n <= |hunks| && Advance(original, hunks, n).Some? && n <= |gaps|
    requires forall i :: 0 <= i < n ==> IsGap(original, hunks, i, gaps[i])
    ensures var at := Advance(original, hunks, n).value;
            && original[..at.consumed] == Woven(gaps, OldBlocks(hunks), n)
            && at.output == Woven(gaps, NewBlocks(hunks), n)
  {
    hide Old, New, ApplyHunk;
    if n > 0 {
      AdvanceWoven(original, hunks, n - 1, gaps);
      assert IsGap(original, hunks, n - 1, gaps[n - 1]);
      StepWoven(original, Advance(original, hunks, n - 1).value, hunks[n - 1], gaps[n - 1]);
    }
  }

  /** Fitting hunks split the old and the new lines into the same gaps. */
  lemma ApplySplits(original: seq<string>, hunks: seq<Hunk>) returns (gaps: seq<seq<string>>)
    requires Apply(original, hunks).Some?
    ensures Splits(original, hunks, gaps, Apply(original, hunks).value)
  {
    hide Old, New, Advance, ApplyHunk, Woven;
    var n := |hunks|;
    var end := Advance(original, hunks, n).value;
    forall i | 0 <= i <= n
      ensures Advance(original, hunks, i).Some?
    {
      AdvanceEarlier(original, hunks, i, n);
    }
    gaps := seq(n, i requires 0 <= i < n => GapBefore(original, hunks, i)) + [original[end.consumed..]];
    AdvanceWoven(original, hunks, n, gaps);
    forall i | 0 <= i < n
      ensures |Woven(gaps, OldBlocks(hunks), i)| + |gaps[i]| == hunks[i].Target()
    {
      AdvanceWoven(original, hunks, i, gaps);
      AdvanceAddressed(original, hunks, i);
    }
    assert original == original[..end.consumed] + original[end.consumed..];
  }

  lemma AdvanceAddressed(original: seq<string>, hunks: seq<Hunk>, i: nat)
    requires i < |hunks| && Advance(original, hunks, i + 1).Some?
    ensures Advance(original, hunks, i).value.consumed + |GapBefore(original, hunks, i)| == hunks[i].Target()
  {
    hide Old, New;
  }

  lemma {:induction false} WovenIsPrefix(gaps: seq<seq<string>>, blocks: seq<seq<string>>, i: nat, n: nat)
    requires i < n <= |gaps| && n <= |blocks|
    ensures Woven(gaps, blocks, i) + gaps[i] + blocks[i] <= Woven(gaps, blocks, n)
  {
    if i < n - 1 {
      WovenIsPrefix(gaps, blocks, i, n - 1);
    }
  }

  lemma StepFits(original: seq<string>, before: Progress, hunk: Hunk, gap: seq<string>)
    requires before.consumed <= |original|
    requires original[..before.consumed] + gap + Old(hunk.ops) <= original
    requires before.consumed + |gap| == hunk.Target()
    ensures ApplyHunk(original, before, hunk)
            == Some(Progress(before.output + gap + New(hunk.ops), before.consumed + |gap| + |Old(hunk.ops)|))
    ensures original[..before.consumed + |gap| + |Old(hunk.ops)|]
            == original[..before.consumed] + gap + Old(hunk.ops)
  {
    hide Old, New;
    var a, b := before.consumed, before.consumed + |gap|;
    var joined := original[..a] + gap + Old(hunk.ops);
    assert joined == original[..|joined|];
    assert original[a..b] == joined[a..b] == gap;
    assert original[b..|joined|] == joined[b..] == Old(hunk.ops);
  }

  lemma SplitAt(original: seq<string>, hunks: seq<Hunk>, gaps: seq<seq<string>>, result: seq<string>, i: nat)
    requires Splits(original, hunks, gaps, result) && i < |hunks|
    ensures i < |gaps| && Woven(gaps, OldBlocks(hunks), i) + gaps[i] + Old(hunks[i].ops) <= original
    ensures |Woven(gaps, OldBlocks(hunks), i)| + |gaps[i]| == hunks[i].Target()
  {
    hide Old, New;
    WovenIsPrefix(gaps, OldBlocks(hunks), i, |hunks|);
  }

  lemma WovenNext(gaps: seq<seq<string>>, blocks: seq<seq<string>>, i: nat)
    requires i < |gaps| && i < |blocks|
    ensures Woven(gaps, blocks, i + 1) == Woven(gaps, blocks, i) + gaps[i] + blocks[i]
  {
  }

  lemma SplitStep(original: seq<string>, before: Progress, hunk: Hunk, gap: seq<string>, woven: seq<string>,
                  output: seq<string>)
    requires before.consumed <= |original| && original[..before.consumed] == woven && before.output == output
    requires woven + gap + Old(hunk.ops) <= original && |woven| + |gap| == hunk.Target()
    ensures var after := ApplyHunk(original, before, hunk);
            && after.Some? && after.value.consumed <= |original|
            && original[..after.value.consumed] == woven + gap + Old(hunk.ops)
            && after.value.output == output + gap + New(hunk.ops)
  {
    hide Old, New, ApplyHunk;
    StepFits(original, before, hunk, gap);
  }

  lemma AdvanceNext(original: seq<string>, hunks: seq<Hunk>, n: nat)
    requires n < |hunks| && Advance(original, hunks, n).Some?
    ensures Advance(original, hunks, n + 1) == ApplyHunk(original, Advance(original, hunks, n).value, hunks[n])
  {
    hide ApplyHunk;
  }

  lemma {:induction false} SplitsAdvance(original: seq<string>, hunks: seq<Hunk>, gaps: seq<seq<string>>,
                                         result: seq<string>, n: nat)
    requires Splits(original, hunks, gaps, result) && n <= |hunks|
    ensures var at := Advance(original, hunks, n);
            && at.Some?
            && original[..at.value.consumed] == Woven(gaps, OldBlocks(hunks), n)
            && at.value.output == Woven(gaps, NewBlocks(hunks), n)
  {
    hide Old, New, ApplyHunk, Advance, Woven, Splits;
    if n == 0 {
      NothingAdvanced(original, hunks, gaps);
    } else {
      SplitsAdvance(original, hunks, gaps, result, n - 1);
      SplitAt(original, hunks, gaps, result, n - 1);
      WovenNext(gaps, OldBlocks(hunks), n - 1);
      WovenNext(gaps, NewBlocks(hunks), n - 1);
      AdvanceNext(original, hunks, n - 1);
      SplitStep(original, Advance(original, hunks, n - 1).value, hunks[n - 1], gaps[n - 1],
                Woven(gaps, OldBlocks(hunks), n - 1), Woven(gaps, NewBlocks(hunks), n - 1));
    }
  }

  lemma NothingAdvanced(original: seq<string>, hunks: seq<Hunk>, gaps: seq<seq<string>>)
    ensures Advance(original, hunks, 0) == Some(Progress([], 0))
    ensures Woven(gaps, OldBlocks(hunks), 0) == [] && Woven(gaps, NewBlocks(hunks), 0) == []
  {
  }

  lemma SplitsApply(original: seq<string>, hunks: seq<Hunk>, gaps: seq<seq<string>>, result: seq<string>)
    requires Splits(original, hunks, gaps, result)
    ensures Apply(original, hunks) == Some(result)
  {
    hide Old, New, OldBlocks, NewBlocks, Advance, Woven;
    var n := |hunks|;
    SplitsAdvance(original, hunks, gaps, result, n);
    var at := Advance(original, hunks, n).value;
    assert original[at.consumed..] == gaps[n];
  }

  /** Hunks fit a file and turn it into the result exactly when both are the
      same gaps around the hunks' lines, each hunk addressed where it stands. */
  lemma ApplyExact(original: seq<string>, hunks: seq<Hunk>, result: seq<string>)
    ensures Apply(original, hunks) == Some(result) <==> exists gaps :: Splits(original, hunks, gaps, result)
  {
    hide Splits, Apply;
    if Apply(original, hunks) == Some(result) {
      var gaps := ApplySplits(original, hunks);
    } else if gaps :| Splits(original, hunks, gaps, result) {
      SplitsApply(original, hunks, gaps, result);
    }
  }

  // ---- The swapped diff ----

  function SwapOps(ops: seq<Op>): (r: seq<Op>)
    ensures |r| == |ops|
  {
    if ops == [] then [] else [ops[0].Swapped()] + SwapOps(ops[1..])
  }

  lemma {:induction false} SwapOpsSides(ops: seq<Op>)
    ensures Old(SwapOps(ops)) == New(ops) && New(SwapOps(ops)) == Old(ops)
  {
    if ops != [] {
      SwapOpsSides(ops[1..]);
      assert SwapOps(ops)[1..] == SwapOps(ops[1..]);
    }
  }

  /** How far the first `n` hunks move the lines after them. */
  function Shift(hunks: seq<Hunk>, n: nat): int
    requires n <= |hunks|
  {
    if n == 0 then 0 else Shift(hunks, n - 1) + |New(hunks[n - 1].ops)| - |Old(hunks[n - 1].ops)|
  }

  /** A hunk with its sides exchanged, addressed in the new lines. */
  function SwapHunk(hunks: seq<Hunk>, i: nat): Hunk
    requires i < |hunks|
  {
    var at := hunks[i].Target() + Shift(hunks, i);
    Hunk(if New(hunks[i].ops) != [] then at + 1 else at, SwapOps(hunks[i].ops))
  }

  function SwapHunks(hunks: seq<Hunk>): (r: seq<Hunk>)
    ensures |r| == |hunks| && forall i :: 0 <= i < |hunks| ==> r[i] == SwapHunk(hunks, i)
  {
    seq(|hunks|, i requires 0 <= i < |hunks| => SwapHunk(hunks, i))
  }

  function Swap(s: Section): Section {
    Section(s.newPath, s.oldPath, SwapHunks(s.hunks))
  }

  lemma {:induction false} ShiftMeasures(hunks: seq<Hunk>, gaps: seq<seq<string>>, n: nat)
    requires |gaps| == |hunks| + 1 && n <= |hunks|
    ensures |Woven(gaps, NewBlocks(hunks), n)| == |Woven(gaps, OldBlocks(hunks), n)| + Shift(hunks, n)
  {
    hide Old, New;
    if n > 0 {
      ShiftMeasures(hunks, gaps, n - 1);
    }
  }

  /** The swapped hunks, with their starts recomputed, fit the patched lines and
      give the original lines back. */
  lemma SwapUndoes(original: seq<string>, hunks: seq<Hunk>)
    requires Apply(original, hunks).Some?
    ensures Apply(Apply(original, hunks).value, SwapHunks(hunks)) == Some(original)
  {
    hide Old, New, SwapOps, Woven, Apply;
    var result := Apply(original, hunks).value;
    var gaps := ApplySplits(original, hunks);
    var swapped := SwapHunks(hunks);
    forall i | 0 <= i < |hunks|
      ensures Old(swapped[i].ops) == New(hunks[i].ops) && New(swapped[i].ops) == Old(hunks[i].ops)
      ensures swapped[i].Target() == |Woven(gaps, NewBlocks(hunks), i)| + |gaps[i]|
    {
      SwapOpsSides(hunks[i].ops);
      ShiftMeasures(hunks, gaps, i);
    }
    assert OldBlocks(swapped) == NewBlocks(hunks) && NewBlocks(swapped) == OldBlocks(hunks);
    SplitsApply(result, swapped, gaps, original);
  }

  /** Where the swapped hunks stand is never before the first line. */
  lemma SwapStarts(original: seq<string>, hunks: seq<Hunk>)
    requires Apply(original, hunks).Some?
    ensures forall h <- SwapHunks(hunks) :: h.start >= 0
  {
    hide Old, New, SwapOps, Woven, Apply;
    var gaps := ApplySplits(original, hunks);
    forall i | 0 <= i < |hunks|
      ensures SwapHunk(hunks, i).start >= 0
    {
      ShiftMeasures(hunks, gaps, i);
    }
  }

  // ---- How many lines a diff moves ----

  /** The old and the new lines of the first `n` hunks, counted. */
  function OldLines(hunks: seq<Hunk>, n: nat): nat
    requires n <= |hunks|
  {
    if n == 0 then 0 else OldLines(hunks, n - 1) + |Old(hunks[n - 1].ops)|
  }

  function NewLines(hunks: seq<Hunk>, n: nat): nat
    requires n <= |hunks|
  {
    if n == 0 then 0 else NewLines(hunks, n - 1) + |New(hunks[n - 1].ops)|
  }

  lemma {:induction false} AdvanceCounts(original: seq<string>, hunks: seq<Hunk>, n: nat)
    requires n <= |hunks| && Advance(original, hunks, n).Some?
    ensures var at := Advance(original, hunks, n).value;
            && |at.output| + OldLines(hunks, n) == at.consumed + NewLines(hunks, n)
            && NewLines(hunks, n) <= |at.output|
  {
    hide Old, New;
    if n > 0 {
      AdvanceCounts(original, hunks, n - 1);
    }
  }

  lemma {:induction false} NoNewLines(hunks: seq<Hunk>, n: nat)
    requires n <= |hunks|
    ensures NewLines(hunks, n) == 0 <==> forall i :: 0 <= i < n ==> New(hunks[i].ops) == []
  {
    hide New;
    if n > 0 {
      NoNewLines(hunks, n - 1);
    }
  }

  /** Fitting hunks leave no line exactly if none of them has a new line and their
      old lines add up to the whole file. */
  lemma LeavesNothing(original: seq<string>, hunks: seq<Hunk>)
    requires Apply(original, hunks).Some?
    ensures Apply(original, hunks) == Some([]) <==>
              (forall h <- hunks :: New(h.ops) == []) && OldLines(hunks, |hunks|) == |original|
  {
    hide Old, New, OldLines, NewLines, Advance;
    AdvanceCounts(original, hunks, |hunks|);
    NoNewLines(hunks, |hunks|);
  }
}
