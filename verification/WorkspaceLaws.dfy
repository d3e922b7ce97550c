/** What the workspace's patch tool asks of a request before it touches a file. */
module WorkspaceLaws {
  import opened Results
  import opened Patch
  import opened PatchText
  import opened PatchStrict
  import opened Workspace

  // ---- One section ----

  /** The edit of a section is about the one path the tools may touch; it starts from
      the file there, or from nothing if the section names no old file, and gives what
      the hunks make of it, within the size of a file, or no file. */
  predicate Edits(policy: Policy, tree: Tree, s: Section, e: Edit) {
    && (if s.newPath.Some? then policy.admit(s.newPath.value) == Some(e.path)
        else s.oldPath.Some? && policy.admit(s.oldPath.value) == Some(e.path))
    && (if s.oldPath.Some? then e.path in tree && e.before == Some(tree[e.path]) else e.before == None)
    && var result := Apply(if s.oldPath.Some? && e.path in tree then tree[e.path] else [], s.hunks);
       && result.Some?
       && (if s.newPath.Some? then e.after == result && ByteSize(result.value) <= 8388608 else e.after == None)
  }

  lemma EditExactly(policy: Policy, tree: Tree, s: Section, e: Edit)
    ensures EditOf(policy, tree, s) == Some(e) <==> Edits(policy, tree, s, e)
  {
    hide Apply, ByteSize;
  }

  // ---- A whole diff ----

  /** The text is a diff of at most 100 files, within a megabyte and without NUL and
      carriage return, about files that differ on any file system, and these are the
      edits of its sections, in order. */
  ghost predicate TextEdits(policy: Policy, tree: Tree, fold: string -> string, lines: Lines, edits: seq<Edit>) {
    && lines != [] && ByteSize(lines) <= 1048576 && (forall line <- lines :: '\0' !in line && '\r' !in line)
    && |edits| <= 100 && (forall i, j :: 0 <= i < j < |edits| ==> fold(edits[i].path) != fold(edits[j].path))
    && exists ss ::
         AreSections(policy, lines, 0, ss) && |ss| == |edits|
         && forall i :: 0 <= i < |ss| ==> Edits(policy, tree, ss[i], edits[i])
  }

  lemma TextExactly(policy: Policy, tree: Tree, fold: string -> string, lines: Lines, edits: seq<Edit>)
    ensures EditsOfText(policy, tree, fold, lines) == Some(edits) <==> TextEdits(policy, tree, fold, lines, edits)
  {
    hide Edits, EditOf, EditsOf, ByteSize, ParseSections, AreSections;
    FoldsApart(fold, edits);
    if EditsOfText(policy, tree, fold, lines) == Some(edits) {
      var ss := ParseSections(policy, lines, 0).value;
      DiffsExactly(policy, lines, ss);
      EditsOfEach(policy, tree, ss);
      forall i | 0 <= i < |ss|
        ensures Edits(policy, tree, ss[i], edits[i])
      {
        EditExactly(policy, tree, ss[i], edits[i]);
      }
    }
    if TextEdits(policy, tree, fold, lines, edits) {
      var ss :| AreSections(policy, lines, 0, ss) && |ss| == |edits|
                && forall i :: 0 <= i < |ss| ==> Edits(policy, tree, ss[i], edits[i]);
      DiffsExactly(policy, lines, ss);
      EditsOfEach(policy, tree, ss);
      forall i | 0 <= i < |ss|
        ensures EditOf(policy, tree, ss[i]) == Some(edits[i])
      {
        EditExactly(policy, tree, ss[i], edits[i]);
      }
      assert EditsOf(policy, tree, ss).value == edits;
    }
  }

  lemma FoldsApart(fold: string -> string, edits: seq<Edit>)
    ensures Distinct(fold, Paths(edits)) <==> forall i, j :: 0 <= i < j < |edits| ==> fold(edits[i].path) != fold(edits[j].path)
  {
    if Distinct(fold, Paths(edits)) {
      forall i, j | 0 <= i < j < |edits|
        ensures fold(edits[i].path) != fold(edits[j].path)
      {
        assert fold(Paths(edits)[i]) != fold(Paths(edits)[j]);
      }
    }
  }

  // ---- The expectations ----

  /** The last of the named files that is this one is named with this digest. */
  ghost predicate NamedLast(policy: Policy, named: seq<(string, Option<string>)>, path: string, digest: Option<string>) {
    exists i :: 0 <= i < |named| && NamedAt(policy, named, i, path, digest)
  }

  predicate NamedAt(policy: Policy, named: seq<(string, Option<string>)>, i: nat, path: string, digest: Option<string>)
    requires i < |named|
  {
    && policy.admit(named[i].0) == Some(path) && named[i].1 == digest
    && forall j :: i < j < |named| ==> policy.admit(named[j].0) != Some(path)
  }

  lemma {:induction false} ExpectationsMean(policy: Policy, named: seq<(string, Option<string>)>)
    ensures Expectations(policy, named).Some? <==> forall i :: 0 <= i < |named| ==> policy.admit(named[i].0).Some?
    ensures Expectations(policy, named).Some? ==>
              forall path, digest ::
                path in Expectations(policy, named).value && Expectations(policy, named).value[path] == digest <==>
                  NamedLast(policy, named, path, digest)
  {
    if named != [] {
      var earlier, last := named[..|named| - 1], named[|named| - 1];
      ExpectationsMean(policy, earlier);
      if Expectations(policy, named).Some? {
        forall path, digest
          ensures path in Expectations(policy, named).value && Expectations(policy, named).value[path] == digest <==>
                    NamedLast(policy, named, path, digest)
        {
          OneMoreNamed(policy, named, path, digest);
        }
      }
    }
  }

  lemma OneMoreNamed(policy: Policy, named: seq<(string, Option<string>)>, path: string, digest: Option<string>)
    requires named != []
    ensures NamedLast(policy, named, path, digest) <==>
              if policy.admit(named[|named| - 1].0) == Some(path) then named[|named| - 1].1 == digest
              else NamedLast(policy, named[..|named| - 1], path, digest)
  {
    var earlier := named[..|named| - 1];
    if policy.admit(named[|named| - 1].0) == Some(path) {
      if named[|named| - 1].1 == digest {
        assert NamedAt(policy, named, |named| - 1, path, digest);
      }
    } else {
      if NamedLast(policy, earlier, path, digest) {
        var i :| 0 <= i < |earlier| && NamedAt(policy, earlier, i, path, digest);
        assert NamedAt(policy, named, i, path, digest);
      }
      if NamedLast(policy, named, path, digest) {
        var i :| 0 <= i < |named| && NamedAt(policy, named, i, path, digest);
        assert NamedAt(policy, earlier, i, path, digest);
      }
    }
  }

  predicate NamesOne(policy: Policy, name: string, edits: seq<Edit>) {
    exists k :: 0 <= k < |edits| && policy.admit(name) == Some(edits[k].path)
  }

  /** The request names exactly the files its diff edits, each with the digest of its
      present content, or with none where the diff starts from nothing. */
  ghost predicate NamesEdited(env: Surroundings, named: seq<(string, Option<string>)>, edits: seq<Edit>) {
    && (forall i :: 0 <= i < |named| ==> NamesOne(env.policy, named[i].0, edits))
    && forall k :: 0 <= k < |edits| ==>
         NamedLast(env.policy, named, edits[k].path,
                   if edits[k].before.None? then None else Some(env.digest(edits[k].before.value)))
  }

  lemma EditedAreExpected(env: Surroundings, named: seq<(string, Option<string>)>, edits: seq<Edit>)
    requires NamesEdited(env, named, edits)
    ensures Expectations(env.policy, named).Some? && Expected(env, Expectations(env.policy, named).value, edits)
  {
    hide NamedLast, Expectations;
    ExpectationsMean(env.policy, named);
    var expected := Expectations(env.policy, named).value;
    forall e <- edits
      ensures e.path in expected && expected[e.path] == if e.before.None? then None else Some(env.digest(e.before.value))
    {
      var k :| 0 <= k < |edits| && edits[k] == e;
      assert NamedLast(env.policy, named, edits[k].path,
                       if edits[k].before.None? then None else Some(env.digest(edits[k].before.value)));
    }
    forall path <- expected
      ensures path in (set e <- edits :: e.path)
    {
      var i := NamedSomewhere(env.policy, named, path, expected[path]);
      assert NamesOne(env.policy, named[i].0, edits);
      var k :| 0 <= k < |edits| && env.policy.admit(named[i].0) == Some(edits[k].path);
      assert edits[k] in edits;
    }
    assert expected.Keys == (set e <- edits :: e.path);
  }

  lemma ExpectedAreNamed(env: Surroundings, named: seq<(string, Option<string>)>, edits: seq<Edit>)
    requires Expectations(env.policy, named).Some? && Expected(env, Expectations(env.policy, named).value, edits)
    ensures NamesEdited(env, named, edits)
  {
    hide NamedLast, Expectations;
    ExpectationsMean(env.policy, named);
    var expected := Expectations(env.policy, named).value;
    forall i | 0 <= i < |named|
      ensures NamesOne(env.policy, named[i].0, edits)
    {
      var path := env.policy.admit(named[i].0).value;
      NamedIsNamed(env.policy, named, i);
      var digest :| NamedLast(env.policy, named, path, digest);
      assert path in expected.Keys;
      var e :| e in edits && e.path == path;
      var k :| 0 <= k < |edits| && edits[k] == e;
    }
    forall k | 0 <= k < |edits|
      ensures NamedLast(env.policy, named, edits[k].path,
                        if edits[k].before.None? then None else Some(env.digest(edits[k].before.value)))
    {
      assert edits[k] in edits;
      assert edits[k].path in expected.Keys;
    }
  }

  lemma ExpectedExactly(env: Surroundings, named: seq<(string, Option<string>)>, edits: seq<Edit>)
    ensures Expectations(env.policy, named).Some? && Expected(env, Expectations(env.policy, named).value, edits) <==>
              NamesEdited(env, named, edits)
  {
    hide Expected, Expectations, NamesEdited;
    if NamesEdited(env, named, edits) {
      EditedAreExpected(env, named, edits);
    }
    if Expectations(env.policy, named).Some? && Expected(env, Expectations(env.policy, named).value, edits) {
      ExpectedAreNamed(env, named, edits);
    }
  }

  lemma NamedSomewhere(policy: Policy, named: seq<(string, Option<string>)>, path: string, digest: Option<string>) returns (i: nat)
    requires NamedLast(policy, named, path, digest)
    ensures i < |named| && policy.admit(named[i].0) == Some(path)
  {
    i :| 0 <= i < |named| && NamedAt(policy, named, i, path, digest);
  }

  lemma {:induction false} NamedIsNamed(policy: Policy, named: seq<(string, Option<string>)>, i: nat)
    requires i < |named| && policy.admit(named[i].0).Some?
    ensures exists digest :: NamedLast(policy, named, policy.admit(named[i].0).value, digest)
    decreases |named| - i
  {
    var path := policy.admit(named[i].0);
    if later :| i < later < |named| && policy.admit(named[later].0) == path {
      NamedIsNamed(policy, named, later);
    } else {
      assert NamedAt(policy, named, i, path.value, named[i].1);
      assert NamedLast(policy, named, path.value, named[i].1);
    }
  }

  // ---- The whole request ----

  /** The tree fits the workspace: names that differ on any file system, and not more
      than so many files and bytes. */
  predicate Fits(env: Surroundings, tree: Tree) {
    && (forall p, q :: p in tree && q in tree && p != q ==> env.fold(p) != env.fold(q))
    && |tree| <= 10000 && env.treeBytes(tree) <= 67108864
  }

  /** A request is granted exactly to somebody who knows the tree and every file the
      diff is about, while no command has the workspace, for a diff that fits the files
      and leaves a tree that fits the workspace; and then it does exactly those edits. */
  lemma GrantedExactly(env: Surroundings, tree: Tree, busy: bool, lines: Lines, expectedTree: string,
                       named: seq<(string, Option<string>)>, edits: seq<Edit>)
    ensures Permitted(env, tree, busy, lines, expectedTree, named) == Some(edits) <==>
              && !busy && env.treeDigest(tree) == expectedTree
              && TextEdits(env.policy, tree, env.fold, lines, edits)
              && NamesEdited(env, named, edits) && Fits(env, Project(tree, edits))
  {
    hide EditsOfText, TextEdits, Expected, Expectations, NamesEdited, Project;
    TextExactly(env.policy, tree, env.fold, lines, edits);
    ExpectedExactly(env, named, edits);
  }
}
