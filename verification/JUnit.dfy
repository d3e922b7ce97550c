/** Bounded JUnit evidence: the explicit-stack reader of one report and the
    totals over all reports. Reports are modelled from the parsed XML tree on. */
module JUnit {
  import opened Results
  import Decimal

  const MAX_NODES := 50000
  const MAX_DEPTH := 32
  const MAX_REPORTS := 256
  const MAX_REPORT_BYTES := 2 * 1024 * 1024
  const MAX_EVIDENCE_BYTES := 16 * 1024 * 1024
  /** Longest numeral the language runtime converts to an integer. */
  const MAX_NUMERAL := 4300

  datatype Tag = TestSuites | TestSuite | TestCase | Failure | Error | Skipped | OtherTag(name: string)

  datatype Attribute = NameAttribute | TestsAttribute | FailuresAttribute | ErrorsAttribute | SkippedAttribute
                     | OtherAttribute(name: string)

  datatype Element = Element(tag: Tag, attributes: map<Attribute, string>, children: seq<Element>)

  datatype Totals = Totals(tests: nat, failures: nat, errors: nat, skipped: nat)
  {
    function Plus(other: Totals): Totals {
      Totals(tests + other.tests, failures + other.failures, errors + other.errors, skipped + other.skipped)
    }
  }

  const ZERO := Totals(0, 0, 0, 0)

  // ---- What a report means ----

  /** Every testcase at or below an element, in document order. */
  function Cases(e: Element): seq<Element>
    decreases e, 1
  {
    (if e.tag == TestCase then [e] else []) + CasesOf(e.children)
  }

  function CasesOf(es: seq<Element>): seq<Element>
    decreases es, 0
  {
    if es == [] then [] else Cases(es[0]) + CasesOf(es[1..])
  }

  predicate HasChild(e: Element, tag: Tag) {
    exists i :: 0 <= i < |e.children| && e.children[i].tag == tag
  }

  function Flag(e: Element, tag: Tag): nat {
    if HasChild(e, tag) then 1 else 0
  }

  /** How many of the first `n` testcases have a child with the tag. */
  function Count(cases: seq<Element>, n: nat, tag: Tag): nat
    requires n <= |cases|
  {
    if n == 0 then 0 else Count(cases, n - 1, tag) + Flag(cases[n - 1], tag)
  }

  function Tally(cases: seq<Element>): Totals {
    var n := |cases|;
    Totals(n, Count(cases, n, Failure), Count(cases, n, Error), Count(cases, n, Skipped))
  }

  predicate DeclaredAs(e: Element, field: Attribute, count: nat) {
    field in e.attributes ==>
      var text := e.attributes[field];
      Decimal.IsNumeral(text) && |text| <= MAX_NUMERAL && Decimal.Value(text) == count
  }

  predicate IsSuite(e: Element) {
    e.tag == TestSuite || e.tag == TestSuites
  }

  predicate CaseAllowed(e: Element, parent: Option<Tag>) {
    && parent == Some(TestSuite)
    && NameAttribute in e.attributes && |e.attributes[NameAttribute]| > 0
    && Flag(e, Failure) + Flag(e, Error) + Flag(e, Skipped) <= 1
  }

  predicate SuiteAllowed(e: Element, parent: Option<Tag>) {
    && parent in {None, Some(TestSuite), Some(TestSuites)}
    && var counts := Tally(Cases(e));
    && DeclaredAs(e, TestsAttribute, counts.tests)
    && DeclaredAs(e, FailuresAttribute, counts.failures)
    && DeclaredAs(e, ErrorsAttribute, counts.errors)
    && DeclaredAs(e, SkippedAttribute, counts.skipped)
  }

  /** A visit to one element, with its depth and its parent's tag. */
  datatype Visit = Visit(node: Element, depth: nat, parent: Option<Tag>)
  {
    predicate Allowed() {
      && depth <= MAX_DEPTH
      && (node.tag == TestCase ==> CaseAllowed(node, parent))
      && (IsSuite(node) ==> SuiteAllowed(node, parent))
    }

    function Children(): (vs: seq<Visit>)
      ensures |vs| == |node.children|
      ensures forall i :: 0 <= i < |vs| ==> vs[i] == Visit(node.children[i], depth + 1, Some(node.tag))
    {
      seq(|node.children|, i requires 0 <= i < |node.children| => Visit(node.children[i], depth + 1, Some(node.tag)))
    }
  }

  /** All visits at and below one, in document order. */
  ghost function Visits(v: Visit): seq<Visit>
    decreases v.node, 1
  {
    [v] + VisitsOf(v.node.children, v.depth + 1, Some(v.node.tag))
  }

  ghost function VisitsOf(es: seq<Element>, depth: nat, parent: Option<Tag>): seq<Visit>
    decreases es, 0
  {
    if es == [] then [] else Visits(Visit(es[0], depth, parent)) + VisitsOf(es[1..], depth, parent)
  }

  ghost predicate AllAllowed(vs: seq<Visit>) {
    forall v <- vs :: v.Allowed()
  }

  ghost predicate Acceptable(root: Element) {
    var all := Visits(Visit(root, 0, None));
    IsSuite(root) && |all| <= MAX_NODES && AllAllowed(all)
  }

  // ---- The explicit stack ----

  ghost function Flatten<T>(parts: seq<seq<T>>): seq<T> {
    if parts == [] then [] else parts[0] + Flatten(parts[1..])
  }

  /** The visits a stack still stands for. */
  ghost function Pending(stack: seq<Visit>): seq<Visit> {
    Flatten(seq(|stack|, i requires 0 <= i < |stack| => Visits(stack[i])))
  }

  /** The testcases among the visits a stack still stands for. */
  ghost function PendingCases(stack: seq<Visit>): seq<Element> {
    Flatten(seq(|stack|, i requires 0 <= i < |stack| => Cases(stack[i].node)))
  }

  lemma {:induction false} CountConcat(a: seq<Element>, b: seq<Element>, n: nat, tag: Tag)
    requires n <= |a| + |b|
    ensures Count(a + b, n, tag)
            == if n <= |a| then Count(a, n, tag) else Count(a, |a|, tag) + Count(b, n - |a|, tag)
  {
    if n > 0 {
      CountConcat(a, b, n - 1, tag);
    }
  }

  lemma TallyConcat(a: seq<Element>, b: seq<Element>)
    ensures Tally(a + b) == Tally(a).Plus(Tally(b))
  {
    CountConcat(a, b, |a| + |b|, Failure);
    CountConcat(a, b, |a| + |b|, Error);
    CountConcat(a, b, |a| + |b|, Skipped);
  }

  lemma CountsOfSplit(a: seq<Element>, b: seq<Element>, c: seq<Element>)
    ensures Tally(a + (b + c)) == Tally(b).Plus(Tally(a + c))
  {
    TallyConcat(b, c);
    TallyConcat(a, b + c);
    TallyConcat(a, c);
  }

  lemma {:induction false} FlattenConcat<T>(a: seq<seq<T>>, b: seq<seq<T>>)
    ensures Flatten(a + b) == Flatten(a) + Flatten(b)
  {
    if a == [] {
      assert a + b == b;
    } else {
      FlattenConcat(a[1..], b);
      assert (a + b)[1..] == a[1..] + b;
    }
  }

  lemma PendingConcat(a: seq<Visit>, b: seq<Visit>)
    ensures Pending(a + b) == Pending(a) + Pending(b)
    ensures PendingCases(a + b) == PendingCases(a) + PendingCases(b)
  {
    var s := a + b;
    var va := seq(|a|, i requires 0 <= i < |a| => Visits(a[i]));
    var vb := seq(|b|, i requires 0 <= i < |b| => Visits(b[i]));
    assert seq(|s|, i requires 0 <= i < |s| => Visits(s[i])) == va + vb;
    FlattenConcat(va, vb);
    var ca := seq(|a|, i requires 0 <= i < |a| => Cases(a[i].node));
    var cb := seq(|b|, i requires 0 <= i < |b| => Cases(b[i].node));
    assert seq(|s|, i requires 0 <= i < |s| => Cases(s[i].node)) == ca + cb;
    FlattenConcat(ca, cb);
  }

  lemma PendingOne(v: Visit)
    ensures Pending([v]) == Visits(v)
    ensures PendingCases([v]) == Cases(v.node)
  {
    assert seq(1, i requires 0 <= i < 1 => Visits([v][i])) == [Visits(v)];
    assert seq(1, i requires 0 <= i < 1 => Cases([v][i].node)) == [Cases(v.node)];
    assert Flatten([Visits(v)]) == Visits(v) + Flatten([]);
    assert Flatten([Cases(v.node)]) == Cases(v.node) + Flatten([]);
  }

  lemma {:induction false} PendingChildren(es: seq<Element>, stack: seq<Visit>, depth: nat, parent: Option<Tag>)
    requires |stack| == |es| && forall i :: 0 <= i < |es| ==> stack[i] == Visit(es[i], depth, parent)
    ensures Pending(stack) == VisitsOf(es, depth, parent)
    ensures PendingCases(stack) == CasesOf(es)
  {
    if es != [] {
      PendingChildren(es[1..], stack[1..], depth, parent);
      PendingOne(stack[0]);
      PendingConcat([stack[0]], stack[1..]);
      assert stack == [stack[0]] + stack[1..];
    }
  }

  /** Taking one visit off the stack and pushing its children accounts for
      exactly that one element. */
  lemma PopPush(rest: seq<Visit>, top: Visit)
    ensures var next := rest + top.Children();
            && |Pending(rest + [top])| == |Pending(next)| + 1
            && (AllAllowed(Pending(rest + [top])) <==> top.Allowed() && AllAllowed(Pending(next)))
            && Tally(PendingCases(rest + [top]))
               == (if top.node.tag == TestCase then Tally([top.node]) else ZERO).Plus(Tally(PendingCases(next)))
  {
    var children := top.node.children;
    var own := if top.node.tag == TestCase then [top.node] else [];
    PendingConcat(rest, [top]);
    PendingConcat(rest, top.Children());
    PendingOne(top);
    PendingChildren(children, top.Children(), top.depth + 1, Some(top.node.tag));
    var before, below := Pending(rest), Pending(top.Children());
    assert Pending([top]) == [top] + below;
    assert AllAllowed(before + ([top] + below)) <==> top.Allowed() && AllAllowed(before + below);
    assert PendingCases([top]) == own + CasesOf(children);
    CountsOfSplit(PendingCases(rest), own, CasesOf(children));
  }

  lemma EmptyStack()
    ensures Pending([]) == [] && PendingCases([]) == [] && AllAllowed([]) && Tally([]) == ZERO
  {
  }

  /** The reader of one report: it returns totals exactly for the acceptable
      trees, and they are the totals of the tree's testcases. */
  method Parse(root: Element) returns (result: Option<Totals>)
    ensures result.Some? <==> Acceptable(root)
    ensures result.Some? ==> result.value == Tally(Cases(root))
  {
    hide Visits, VisitsOf, Cases, CasesOf, Tally, Pending, PendingCases, AllAllowed, CaseAllowed, SuiteAllowed;
    if !IsSuite(root) {
      return None;
    }
    EmptyStack();
    var totals, nodes := ZERO, 0;
    var pending := [Visit(root, 0, None)];
    ghost var all := Visits(Visit(root, 0, None));
    PendingOne(Visit(root, 0, None));
    while pending != []
      invariant nodes <= MAX_NODES
      invariant nodes + |Pending(pending)| == |all|
      invariant totals.Plus(Tally(PendingCases(pending))) == Tally(Cases(root))
      invariant AllAllowed(Pending(pending)) <==> AllAllowed(all)
      decreases |Pending(pending)|
    {
      var top, rest := pending[|pending| - 1], pending[..|pending| - 1];
      assert pending == rest + [top];
      PopPush(rest, top);
      nodes := nodes + 1;
      if nodes > MAX_NODES || top.depth > MAX_DEPTH {
        return None;
      }
      pending := rest + top.Children();
      if top.node.tag == TestCase {
        if !CaseAllowed(top.node, top.parent) {
          return None;
        }
        totals := totals.Plus(Tally([top.node]));
      }
      if IsSuite(top.node) && !SuiteAllowed(top.node, top.parent) {
        return None;
      }
    }
    return Some(totals);
  }

  // ---- All reports of one run ----

  /** A report file: its size and, when it is safe well-formed XML, its tree. */
  datatype Report = Report(bytes: nat, document: Option<Element>)

  datatype JUnitResult = JUnitResult(reports: nat, totals: Totals)
  {
    function Executed(): int {
      totals.tests - totals.skipped
    }

    predicate Passed() {
      Executed() > 0 && totals.failures == 0 && totals.errors == 0
    }
  }

  /** Bytes of the first `n` reports. */
  ghost function EvidenceBytes(reports: seq<Report>, n: nat): nat
    requires n <= |reports|
  {
    if n == 0 then 0 else EvidenceBytes(reports, n - 1) + reports[n - 1].bytes
  }

  ghost predicate ReportAllowed(report: Report) {
    report.bytes <= 2097152 && report.document.Some? && Acceptable(report.document.value)
  }

  function CasesIn(report: Report): seq<Element> {
    if report.document.Some? then Cases(report.document.value) else []
  }

  /** The testcases of the first `n` reports, in report order. */
  ghost function AllCases(reports: seq<Report>, n: nat): seq<Element>
    requires n <= |reports|
  {
    if n == 0 then [] else AllCases(reports, n - 1) + CasesIn(reports[n - 1])
  }

  lemma {:induction false} EvidenceGrows(reports: seq<Report>, k: nat, n: nat)
    requires k <= n <= |reports|
    ensures EvidenceBytes(reports, k) <= EvidenceBytes(reports, n)
  {
    if k < n {
      EvidenceGrows(reports, k, n - 1);
    }
  }

  lemma OneMoreReport(reports: seq<Report>, i: nat)
    requires i < |reports|
    ensures Tally(AllCases(reports, i + 1)) == Tally(AllCases(reports, i)).Plus(Tally(CasesIn(reports[i])))
    ensures EvidenceBytes(reports, i + 1) == EvidenceBytes(reports, i) + reports[i].bytes <= EvidenceBytes(reports, |reports|)
  {
    hide Tally, CasesIn;
    TallyConcat(AllCases(reports, i), CasesIn(reports[i]));
    EvidenceGrows(reports, i + 1, |reports|);
  }

  lemma NoReports(reports: seq<Report>)
    ensures Tally(AllCases(reports, 0)) == ZERO && EvidenceBytes(reports, 0) == 0
  {
  }

  /** Evidence is collected exactly when there are between 1 and 256 reports,
      each acceptable and within its size, together within the total size. */
  method Collect(reports: seq<Report>) returns (result: Option<JUnitResult>)
    ensures result.Some? <==>
            && 1 <= |reports| <= 256
            && (forall i :: 0 <= i < |reports| ==> ReportAllowed(reports[i]))
            && EvidenceBytes(reports, |reports|) <= 16777216
    ensures result.Some? ==> result.value == JUnitResult(|reports|, Tally(AllCases(reports, |reports|)))
  {
    hide Tally, Cases, AllCases, EvidenceBytes, Acceptable;
    if reports == [] || |reports| > MAX_REPORTS {
      return None;
    }
    NoReports(reports);
    var totals, size := ZERO, 0;
    for i := 0 to |reports|
      invariant forall j :: 0 <= j < i ==> ReportAllowed(reports[j])
      invariant size == EvidenceBytes(reports, i) <= MAX_EVIDENCE_BYTES
      invariant totals == Tally(AllCases(reports, i))
    {
      var report := reports[i];
      if report.bytes > MAX_REPORT_BYTES {
        return None;
      }
      size := size + report.bytes;
      OneMoreReport(reports, i);
      if size > MAX_EVIDENCE_BYTES || report.document.None? {
        return None;
      }
      var parsed := Parse(report.document.value);
      if parsed.None? {
        return None;
      }
      totals := totals.Plus(parsed.value);
    }
    return Some(JUnitResult(|reports|, totals));
  }

  // ---- What the numbers promise ----

  lemma {:induction false} CountMeaning(cases: seq<Element>, n: nat, tag: Tag)
    requires n <= |cases|
    ensures Count(cases, n, tag) <= n
    ensures Count(cases, n, tag) == 0 <==> forall i :: 0 <= i < n ==> !HasChild(cases[i], tag)
    ensures Count(cases, n, tag) < n <==> exists i :: 0 <= i < n && !HasChild(cases[i], tag)
  {
    if n > 0 {
      CountMeaning(cases, n - 1, tag);
    }
  }

  /** `passed` holds exactly when no testcase failed or errored and at least one
      of them was not skipped. */
  lemma PassedMeaning(reports: seq<Report>)
    ensures JUnitResult(|reports|, Tally(AllCases(reports, |reports|))).Passed() <==>
            && (forall c <- AllCases(reports, |reports|) :: !HasChild(c, Failure) && !HasChild(c, Error))
            && (exists c <- AllCases(reports, |reports|) :: !HasChild(c, Skipped))
  {
    var cases := AllCases(reports, |reports|);
    CountMeaning(cases, |cases|, Failure);
    CountMeaning(cases, |cases|, Error);
    CountMeaning(cases, |cases|, Skipped);
  }

  /** In an accepted report every suite, at any depth, declares only the counts
      its own subtree has. */
  lemma DeclaredCountsAreTrue(root: Element, v: Visit)
    requires Acceptable(root) && v in Visits(Visit(root, 0, None)) && IsSuite(v.node)
    ensures var counts := Tally(Cases(v.node));
            && DeclaredAs(v.node, TestsAttribute, counts.tests)
            && DeclaredAs(v.node, FailuresAttribute, counts.failures)
            && DeclaredAs(v.node, ErrorsAttribute, counts.errors)
            && DeclaredAs(v.node, SkippedAttribute, counts.skipped)
  {
    assert v.Allowed();
  }

  lemma {:induction false} CasesAreVisited(v: Visit, c: Element)
    requires c in Cases(v.node)
    ensures c.tag == TestCase && exists w <- Visits(v) :: w.node == c
    decreases v.node, 1
  {
    if v.node.tag == TestCase && c == v.node {
      assert Visits(v)[0] == v;
    } else {
      CasesOfAreVisited(v.node.children, v.depth + 1, Some(v.node.tag), c);
    }
  }

  lemma {:induction false} CasesOfAreVisited(es: seq<Element>, depth: nat, parent: Option<Tag>, c: Element)
    requires c in CasesOf(es)
    ensures c.tag == TestCase && exists w <- VisitsOf(es, depth, parent) :: w.node == c
    decreases es, 0
  {
    if c in Cases(es[0]) {
      CasesAreVisited(Visit(es[0], depth, parent), c);
    } else {
      CasesOfAreVisited(es[1..], depth, parent, c);
    }
  }

  lemma {:induction false} OutcomesAreExclusive(cases: seq<Element>, n: nat)
    requires n <= |cases|
    requires forall c <- cases :: Flag(c, Failure) + Flag(c, Error) + Flag(c, Skipped) <= 1
    ensures Count(cases, n, Failure) + Count(cases, n, Error) + Count(cases, n, Skipped) <= n
  {
    if n > 0 {
      OutcomesAreExclusive(cases, n - 1);
    }
  }

  /** In an accepted report the failed, errored and skipped testcases never
      outnumber the testcases. */
  lemma OutcomesBounded(root: Element)
    requires Acceptable(root)
    ensures var t := Tally(Cases(root)); t.failures + t.errors + t.skipped <= t.tests
  {
    forall c <- Cases(root)
      ensures Flag(c, Failure) + Flag(c, Error) + Flag(c, Skipped) <= 1
    {
      CasesAreVisited(Visit(root, 0, None), c);
    }
    OutcomesAreExclusive(Cases(root), |Cases(root)|);
  }

  // ---- Acceptable reports, said of the tree ----

  /** Which of the first `n` testcases have a child with the tag. */
  ghost function Where(cases: seq<Element>, n: nat, tag: Tag): set<nat>
    requires n <= |cases|
  {
    set i: nat | i < n && HasChild(cases[i], tag)
  }

  ghost function Having(cases: seq<Element>, tag: Tag): nat {
    |Where(cases, |cases|, tag)|
  }

  lemma WhereNext(cases: seq<Element>, n: nat, tag: Tag)
    requires 0 < n <= |cases|
    ensures Where(cases, n, tag) == Where(cases, n - 1, tag) + if HasChild(cases[n - 1], tag) then {n - 1} else {}
    ensures n - 1 !in Where(cases, n - 1, tag)
  {
    hide HasChild;
  }

  lemma {:induction false} CountIsNumber(cases: seq<Element>, n: nat, tag: Tag)
    requires n <= |cases|
    ensures Count(cases, n, tag) == |Where(cases, n, tag)|
  {
    hide HasChild;
    if n == 0 {
      assert Where(cases, 0, tag) == {};
    } else {
      CountIsNumber(cases, n - 1, tag);
      hide Where;
      WhereNext(cases, n, tag);
    }
  }

  /** The text, if there is one, is a numeral for the number. */
  predicate Names(attributes: map<Attribute, string>, field: Attribute, number: nat) {
    field in attributes ==>
      var text := attributes[field];
      && text != "" && |text| <= 4300 && (forall i :: 0 <= i < |text| ==> '0' <= text[i] <= '9')
      && Decimal.Value(text) == number
  }

  /** A suite that declares counts declares how many testcases it has at any depth,
      and how many of them failed, errored and were skipped. */
  ghost predicate DeclaresTruly(e: Element) {
    var cases := Cases(e);
    && Names(e.attributes, TestsAttribute, |cases|)
    && Names(e.attributes, FailuresAttribute, Having(cases, Failure))
    && Names(e.attributes, ErrorsAttribute, Having(cases, Error))
    && Names(e.attributes, SkippedAttribute, Having(cases, Skipped))
  }

  /** A testcase has a name and one outcome. */
  predicate ProperCase(e: Element) {
    && NameAttribute in e.attributes && e.attributes[NameAttribute] != ""
    && !(HasChild(e, Failure) && HasChild(e, Error)) && !(HasChild(e, Failure) && HasChild(e, Skipped))
    && !(HasChild(e, Error) && HasChild(e, Skipped))
  }

  /** A child fits below its parent: testcases into a suite, suites into suites. */
  ghost predicate FitsInto(child: Element, parent: Tag) {
    && (child.tag == TestCase ==> parent == TestSuite && ProperCase(child))
    && (child.tag == TestSuite || child.tag == TestSuites ==>
          (parent == TestSuite || parent == TestSuites) && DeclaresTruly(child))
  }

  /** Everything below fits, within so many levels. */
  ghost predicate Nested(e: Element, levels: nat) {
    forall i :: 0 <= i < |e.children| ==>
      levels > 0 && FitsInto(e.children[i], e.tag) && Nested(e.children[i], levels - 1)
  }

  function Size(e: Element): nat
    decreases e, 1
  {
    1 + SizeOf(e.children)
  }

  function SizeOf(es: seq<Element>): nat
    decreases es, 0
  {
    if es == [] then 0 else Size(es[0]) + SizeOf(es[1..])
  }

  lemma {:induction false} SizeVisits(v: Visit)
    ensures |Visits(v)| == Size(v.node)
    decreases v.node, 1
  {
    SizeVisitsOf(v.node.children, v.depth + 1, Some(v.node.tag));
  }

  lemma {:induction false} SizeVisitsOf(es: seq<Element>, depth: nat, parent: Option<Tag>)
    ensures |VisitsOf(es, depth, parent)| == SizeOf(es)
    decreases es, 0
  {
    if es != [] {
      SizeVisits(Visit(es[0], depth, parent));
      SizeVisitsOf(es[1..], depth, parent);
    }
  }

  lemma TrulyDeclared(e: Element)
    ensures DeclaresTruly(e) <==>
              var counts := Tally(Cases(e));
              && DeclaredAs(e, TestsAttribute, counts.tests) && DeclaredAs(e, FailuresAttribute, counts.failures)
              && DeclaredAs(e, ErrorsAttribute, counts.errors) && DeclaredAs(e, SkippedAttribute, counts.skipped)
  {
    hide Cases, Count, Where;
    var cases := Cases(e);
    CountIsNumber(cases, |cases|, Failure);
    CountIsNumber(cases, |cases|, Error);
    CountIsNumber(cases, |cases|, Skipped);
  }

  lemma FitsExactly(child: Element, depth: nat, parent: Tag)
    ensures Visit(child, depth, Some(parent)).Allowed() <==> depth <= MAX_DEPTH && FitsInto(child, parent)
  {
    hide DeclaresTruly, DeclaredAs, Tally, Cases;
    TrulyDeclared(child);
  }

  lemma {:induction false} NestedExactly(v: Visit)
    requires v.depth <= MAX_DEPTH
    ensures AllAllowed(Visits(v)) <==> v.Allowed() && Nested(v.node, MAX_DEPTH - v.depth)
    decreases v.node, 1
  {
    hide FitsInto, CaseAllowed, SuiteAllowed;
    AllNested(v.node.children, v.depth + 1, v.node.tag);
    var below := VisitsOf(v.node.children, v.depth + 1, Some(v.node.tag));
    assert AllAllowed([v] + below) <==> v.Allowed() && AllAllowed(below);
  }

  /** Every element of the list fits below the parent, at this depth. */
  ghost predicate AllFit(es: seq<Element>, depth: nat, parent: Tag) {
    forall i :: 0 <= i < |es| ==>
      depth <= MAX_DEPTH && FitsInto(es[i], parent) && Nested(es[i], MAX_DEPTH - depth)
  }

  lemma {:induction false} AllNested(es: seq<Element>, depth: nat, parent: Tag)
    ensures AllAllowed(VisitsOf(es, depth, Some(parent))) <==> AllFit(es, depth, parent)
    decreases es, 0
  {
    hide FitsInto, CaseAllowed, SuiteAllowed, Nested;
    if es != [] {
      var first := Visit(es[0], depth, Some(parent));
      FitsExactly(es[0], depth, parent);
      if depth <= MAX_DEPTH {
        NestedExactly(first);
      } else {
        assert first in Visits(first);
      }
      AllNested(es[1..], depth, parent);
      var below, rest := Visits(first), VisitsOf(es[1..], depth, Some(parent));
      assert AllAllowed(below + rest) <==> AllAllowed(below) && AllAllowed(rest);
      assert AllFit(es, depth, parent) <==>
             depth <= MAX_DEPTH && FitsInto(es[0], parent) && Nested(es[0], MAX_DEPTH - depth) && AllFit(es[1..], depth, parent);
    }
  }

  /** A report is acceptable exactly if it is a suite that declares truly, has at most
      50000 elements in at most 32 levels below it, and nests only named testcases of
      one outcome into suites and truly declaring suites into suites. */
  lemma AcceptableTrees(root: Element)
    ensures Acceptable(root) <==>
              && (root.tag == TestSuite || root.tag == TestSuites) && DeclaresTruly(root)
              && Nested(root, 32) && Size(root) <= 50000
  {
    hide Nested, DeclaresTruly, DeclaredAs, Tally, Cases, Visits;
    var v := Visit(root, 0, None);
    SizeVisits(v);
    NestedExactly(v);
    TrulyDeclared(root);
  }

  /** So a suite of named testcases of one outcome each, without further structure, is
      accepted whatever its size up to the limit, and counts them all. */
  lemma FlatSuiteAccepted(root: Element)
    requires root.tag == TestSuite && |root.children| < 50000
    requires forall i :: 0 <= i < |root.children| ==>
               root.children[i].tag == TestCase && root.children[i].children == [] && ProperCase(root.children[i])
    requires TestsAttribute in root.attributes ==> Names(root.attributes, TestsAttribute, |root.children|)
    requires FailuresAttribute !in root.attributes && ErrorsAttribute !in root.attributes && SkippedAttribute !in root.attributes
    ensures Acceptable(root) && Tally(Cases(root)).tests == |root.children|
  {
    hide Acceptable, ProperCase, Having;
    FlatCases(root.children);
    forall i | 0 <= i < |root.children|
      ensures Nested(root.children[i], 31)
    {
    }
    assert Cases(root) == CasesOf(root.children);
    AcceptableTrees(root);
  }

  lemma {:induction false} FlatCases(es: seq<Element>)
    requires forall i :: 0 <= i < |es| ==> es[i].tag == TestCase && es[i].children == []
    ensures CasesOf(es) == es && SizeOf(es) == |es|
  {
    if es != [] {
      FlatCases(es[1..]);
      assert Cases(es[0]) == [es[0]] && Size(es[0]) == 1;
      assert es == [es[0]] + es[1..];
    }
  }
}
