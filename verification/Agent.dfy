/** One agent run as micro-steps: reserved steps, model calls, checks, repairs and
    stage changes, with a crash possible between any two. */
module Agent {
  import opened Results

  type Digest = string

  datatype Stage = Requirements | Design | Implementation | TestGeneration | Verification | Review

  datatype Status = Queued | Running | WaitingHuman | Blocked | ReadyForPr

  datatype Reason = NoReason | Paused | BasisChanged | ModelCancelled | AgentCancelled | ApprovalRequired | StartRequired
                  | GateClosed | ActiveBudget | RepairBudget | RecoveryRequired | WorkspaceChanged | OtherReason(code: string)

  datatype Check = Check(command: string, digest: Digest, succeeded: bool)

  datatype Verdict = Verdict(digest: Digest, clean: bool)

  /** What the operator configured. */
  datatype Setup = Setup(commands: seq<string>, modelCalls: nat, repairs: nat)

  datatype Run = Run(stage: Stage, status: Status, reason: Reason, sequence: nat, modelCalls: nat, repairs: nat,
                     inProgress: Option<Stage>, checks: seq<Check>, verified: Option<Digest>, review: Option<Verdict>)

  /** Where the live process is inside its step, if there is one. */
  datatype Hand = Absent | Asking | Answered | Checking(digest: Digest, passed: nat) | CheckFailed | Judged(clean: bool)
                | Moving(to: Stage) | Leaving | Closing

  /** `again` counts the resumes and requirement refreshes. */
  datatype World = World(run: Run, hand: Hand, again: nat)

  /** `Halt` is a note from outside the loop: recovery, or a publication whose basis
      is gone. */
  datatype Event =
    | ReserveStep(observed: Digest)
    | Consume
    | ToolCheck(check: Check)
    | ToolRepair
    | RunCheck(succeeded: bool)
    | Repair
    | Verify
    | Judge(clean: bool)
    | Advance
    | Move
    | Ready
    | Complete
    | Fail(reason: Reason)
    | Checkpoint(overspent: bool)
    | Wait(blocked: bool, reason: Reason)
    | Refresh
    | Resume
    | Halt(halted: Reason)
    | Crash

  const STARTED := World(Run(Requirements, Queued, NoReason, 0, 0, 0, None, [], None, None), Absent, 0)

  function Next(s: Stage): Stage {
    match s
    case Requirements => Design
    case Design => Implementation
    case Implementation => TestGeneration
    case _ => Verification
  }

  predicate Refreshable(r: Reason) {
    r.NoReason? || r.ApprovalRequired? || r.GateClosed? || r.BasisChanged? || r.ModelCancelled? || r.AgentCancelled?
  }

  predicate Resumable(r: Reason) {
    r.Paused? || r.BasisChanged? || r.ModelCancelled? || r.AgentCancelled?
  }

  predicate MayRunChecks(s: Stage) {
    s.Implementation? || s.TestGeneration?
  }

  predicate Idle(w: World) {
    w.run.inProgress.None? && w.hand.Absent?
  }

  predicate Legal(setup: Setup, w: World, e: Event) {
    match e
    case ReserveStep(_) => Idle(w) && !w.run.status.Blocked? && !w.run.status.ReadyForPr?
    case Consume => w.hand.Asking? && w.run.modelCalls < setup.modelCalls
    case ToolCheck(_) => w.hand.Answered? && MayRunChecks(w.run.stage)
    case ToolRepair => w.hand.Answered? && MayRunChecks(w.run.stage) && w.run.repairs < setup.repairs
    case RunCheck(_) => w.hand.Checking? && w.hand.passed < |setup.commands|
    case Repair => (w.hand.CheckFailed? || w.hand == Judged(false)) && w.run.repairs < setup.repairs
    case Verify => w.hand.Checking? && w.hand.passed == |setup.commands|
    case Judge(_) => w.hand.Answered? && w.run.stage.Review? && w.run.verified.Some?
    case Advance => w.hand.Answered? && !w.run.stage.Review? && !w.run.stage.Verification?
    case Move => w.hand.Moving?
    case Ready => w.hand == Judged(true)
    case Complete => w.hand.Leaving? || w.hand.Answered?
    case Fail(_) => !w.hand.Absent? && !w.hand.Closing?
    case Checkpoint(_) => w.hand.Closing?
    case Wait(blocked, _) => Idle(w) && (blocked || !w.run.status.Blocked?)
    case Refresh => Idle(w) && !w.run.stage.Requirements? && Refreshable(w.run.reason)
    case Resume => Idle(w) && Resumable(w.run.reason)
    case Halt(_) => true
    case Crash => true
  }

  function Moved(r: Run, s: Stage): Run {
    r.(stage := s, status := Queued, reason := NoReason)
  }

  function Step(setup: Setup, w: World, e: Event): World {
    var r := w.run;
    match e
    case ReserveStep(observed) =>
      w.(run := r.(inProgress := Some(r.stage), sequence := r.sequence + 1, status := Running, reason := NoReason),
         hand := if r.stage.Verification? then Checking(observed, 0) else Asking)
    case Consume => w.(run := r.(modelCalls := r.modelCalls + 1), hand := Answered)
    case ToolCheck(check) => w.(run := r.(checks := r.checks + [check]))
    case ToolRepair => w.(run := r.(repairs := r.repairs + 1))
    case RunCheck(succeeded) =>
      if !w.hand.Checking? || w.hand.passed >= |setup.commands| then w else
      w.(run := r.(checks := r.checks + [Check(setup.commands[w.hand.passed], w.hand.digest, succeeded)]),
         hand := if succeeded then Checking(w.hand.digest, w.hand.passed + 1) else CheckFailed)
    case Repair => w.(run := r.(repairs := r.repairs + 1), hand := Moving(Implementation))
    case Verify => if w.hand.Checking? then w.(run := r.(verified := Some(w.hand.digest)), hand := Moving(Review)) else w
    case Judge(clean) =>
      if r.verified.Some? then w.(run := r.(review := Some(Verdict(r.verified.value, clean))), hand := Judged(clean)) else w
    case Advance => w.(run := Moved(r, Next(r.stage)), hand := Leaving)
    case Move => if w.hand.Moving? then w.(run := Moved(r, w.hand.to), hand := Leaving) else w
    case Ready => w.(run := r.(status := ReadyForPr, reason := NoReason), hand := Leaving)
    case Complete => w.(run := r.(status := if r.status.Running? then Queued else r.status), hand := Closing)
    case Fail(reason) => w.(run := r.(status := Blocked, reason := reason), hand := Closing)
    case Checkpoint(overspent) =>
      w.(run := if overspent then r.(inProgress := None, status := Blocked, reason := ActiveBudget) else r.(inProgress := None),
         hand := Absent)
    case Wait(blocked, reason) => w.(run := r.(status := if blocked then Blocked else WaitingHuman, reason := reason))
    case Refresh => w.(run := Moved(r, Requirements), again := w.again + 1)
    case Resume => w.(run := r.(status := Queued, reason := NoReason), again := w.again + 1)
    case Halt(reason) => w.(run := r.(status := Blocked, reason := reason))
    case Crash => w.(hand := Absent)
  }

  function After(setup: Setup, log: seq<Event>, n: nat): World
    requires n <= |log|
  {
    if n == 0 then STARTED else Step(setup, After(setup, log, n - 1), log[n - 1])
  }

  /** Event `n` is lawful where it stands. */
  ghost predicate LegalAt(setup: Setup, log: seq<Event>, n: nat)
    requires n < |log|
  {
    Legal(setup, After(setup, log, n), log[n])
  }

  ghost predicate LegalLog(setup: Setup, log: seq<Event>) {
    forall n :: 0 <= n < |log| ==> LegalAt(setup, log, n)
  }

  lemma StepAfter(setup: Setup, log: seq<Event>, n: nat)
    requires LegalLog(setup, log) && n < |log|
    ensures After(setup, log, n + 1) == Step(setup, After(setup, log, n), log[n]) && Legal(setup, After(setup, log, n), log[n])
  {
    hide Legal, Step;
    assert LegalAt(setup, log, n);
  }

  lemma Beginning(setup: Setup, log: seq<Event>)
    ensures After(setup, log, 0) == STARTED
  {
  }

  // ---- The shape of a step ----

  /** Where the process can be, by the stage its step was reserved for. */
  predicate Shaped(w: World) {
    var r := w.run;
    && (r.inProgress.None? ==> w.hand.Absent?)
    && (r.inProgress.Some? && r.inProgress.value.Verification? ==>
          && !w.hand.Asking? && !w.hand.Answered? && !w.hand.Judged?
          && (w.hand.Checking? || w.hand.CheckFailed? || w.hand.Moving? ==> r.stage.Verification?)
          && (w.hand.Leaving? ==> !r.stage.Verification?)
          && (w.hand.Closing? && r.stage.Verification? ==> r.status.Blocked?))
    && (r.inProgress.Some? && !r.inProgress.value.Verification? ==>
          && !w.hand.Checking? && !w.hand.CheckFailed?
          && (w.hand.Asking? || w.hand.Answered? ==> r.stage == r.inProgress.value)
          && (w.hand.Judged? || w.hand.Moving? ==> r.stage.Review?))
    && (w.hand.Moving? ==> w.hand.to.Implementation? || (w.hand.to.Review? && r.inProgress == Some(Verification)))
    && (r.status.ReadyForPr? ==> w.hand.Absent? || w.hand.Leaving? || w.hand.Closing?)
  }

  lemma ShapedStep(setup: Setup, w: World, e: Event)
    requires Shaped(w) && Legal(setup, w, e)
    ensures Shaped(Step(setup, w, e))
  {
  }

  /** The stage that a stage leads to. */
  predicate Leads(before: Stage, after: Stage) {
    || (before == Requirements && after == Design) || (before == Design && after == Implementation)
    || (before == Implementation && after == TestGeneration) || (before == TestGeneration && after == Verification)
    || (before == Verification && after == Review)
  }

  /** A run goes on stage by stage, back to the implementation from verification and
      review only, and back to the requirements only by a refresh of a settled run that
      did not stop for good. */
  lemma StageGraph(setup: Setup, w: World, e: Event)
    requires Shaped(w) && Legal(setup, w, e)
    ensures var before, after := w.run.stage, Step(setup, w, e).run.stage;
            || before == after || Leads(before, after)
            || (after == Implementation && (before == Verification || before == Review))
            || (after == Requirements && e == Refresh && w.run.inProgress.None?
                && w.run.reason in {NoReason, ApprovalRequired, GateClosed, BasisChanged, ModelCancelled, AgentCancelled})
  {
  }

  /** A step is reserved only on a settled run that is neither blocked nor ready, and
      reserves its stage; a run resumes only from four reasons. */
  lemma StartsMean(setup: Setup, w: World, e: Event)
    requires Legal(setup, w, e)
    ensures e.ReserveStep? ==>
              && w.run.inProgress == None && w.run.status != Blocked && w.run.status != ReadyForPr
              && Step(setup, w, e).run
                 == w.run.(inProgress := Some(w.run.stage), sequence := w.run.sequence + 1, status := Running, reason := NoReason)
    ensures e == Resume ==> w.run.inProgress == None && w.run.reason in {Paused, BasisChanged, ModelCancelled, AgentCancelled}
  {
  }

  // ---- The bound on steps ----

  /** How many further reservations the state must still be good for. */
  function Owed(w: World): nat {
    var idle := if w.run.stage.Verification? then (if w.run.status.Blocked? then 1 else 2)
                else if w.run.status.Blocked? then 0 else 1;
    if w.run.inProgress.None? || w.hand.Closing? then idle
    else if w.hand.Absent? || w.hand.Asking? then 0
    else if w.run.inProgress.value.Verification? then 1 else 2
  }

  /** Every consumed model call pays for two reservations, every resume or refresh for
      one, and one is free. */
  predicate Paid(w: World) {
    w.run.sequence + Owed(w) <= 2 * w.run.modelCalls + w.again + 1
  }

  lemma PaidStep(setup: Setup, w: World, e: Event)
    requires Shaped(w) && Paid(w) && Legal(setup, w, e)
    ensures Paid(Step(setup, w, e))
  {
  }

  lemma CallsStep(setup: Setup, w: World, e: Event)
    requires Legal(setup, w, e) && w.run.modelCalls <= setup.modelCalls && w.run.repairs <= setup.repairs
    ensures Step(setup, w, e).run.modelCalls <= setup.modelCalls && Step(setup, w, e).run.repairs <= setup.repairs
  {
  }

  lemma {:induction false} PaidAlways(setup: Setup, log: seq<Event>, n: nat)
    requires LegalLog(setup, log) && n <= |log|
    ensures var w := After(setup, log, n);
            Shaped(w) && Paid(w) && w.run.modelCalls <= setup.modelCalls && w.run.repairs <= setup.repairs
  {
    hide Shaped, Paid, Legal, Step, After, LegalLog;
    if n == 0 {
      Beginning(setup, log);
      assert Shaped(STARTED) && Paid(STARTED) by { Starts(); }
    } else {
      PaidAlways(setup, log, n - 1);
      StepAfter(setup, log, n - 1);
      var w := After(setup, log, n - 1);
      ShapedStep(setup, w, log[n - 1]);
      PaidStep(setup, w, log[n - 1]);
      CallsStep(setup, w, log[n - 1]);
    }
  }

  lemma Starts()
    ensures Shaped(STARTED) && Paid(STARTED)
  {
  }

  function Reservations(log: seq<Event>, n: nat): nat
    requires n <= |log|
  {
    if n == 0 then 0 else Reservations(log, n - 1) + if log[n - 1].ReserveStep? then 1 else 0
  }

  function Restarts(log: seq<Event>, n: nat): nat
    requires n <= |log|
  {
    if n == 0 then 0 else Restarts(log, n - 1) + if log[n - 1].Resume? || log[n - 1].Refresh? then 1 else 0
  }

  lemma {:induction false} Counted(setup: Setup, log: seq<Event>, n: nat)
    requires LegalLog(setup, log) && n <= |log|
    ensures After(setup, log, n).run.sequence == Reservations(log, n) && After(setup, log, n).again == Restarts(log, n)
  {
    hide Legal, After, LegalLog, Moved;
    if n == 0 {
      Beginning(setup, log);
    } else {
      Counted(setup, log, n - 1);
      StepAfter(setup, log, n - 1);
      CountedStep(setup, After(setup, log, n - 1), log[n - 1]);
    }
  }

  lemma CountedStep(setup: Setup, w: World, e: Event)
    ensures Step(setup, w, e).run.sequence == w.run.sequence + if e.ReserveStep? then 1 else 0
    ensures Step(setup, w, e).again == w.again + if e.Resume? || e.Refresh? then 1 else 0
  {
  }

  /** A run reserves at most two steps for every model call it may make, one for every
      resume and refresh, and one more. */
  lemma StepsBounded(setup: Setup, log: seq<Event>, n: nat)
    requires LegalLog(setup, log) && n <= |log|
    ensures Reservations(log, n) <= 2 * setup.modelCalls + 1 + Restarts(log, n)
  {
    hide Legal, Step, After, LegalLog, Shaped, Reservations, Restarts, Owed;
    PaidAlways(setup, log, n);
    Counted(setup, log, n);
  }

  // ---- Ready for a pull request ----

  /** The last check of a command among the first `n`. */
  function Latest(checks: seq<Check>, n: nat, command: string): Option<Check>
    requires n <= |checks|
  {
    if n == 0 then None
    else if checks[n - 1].command == command then Some(checks[n - 1])
    else Latest(checks, n - 1, command)
  }

  predicate LatestPassed(checks: seq<Check>, command: string, digest: Digest) {
    var last := Latest(checks, |checks|, command);
    last.Some? && last.value.succeeded && last.value.digest == digest
  }

  predicate FirstPassed(setup: Setup, checks: seq<Check>, digest: Digest, n: nat)
    requires n <= |setup.commands|
  {
    forall i :: 0 <= i < n ==> LatestPassed(checks, setup.commands[i], digest)
  }

  predicate DistinctCommands(setup: Setup) {
    forall i, j :: 0 <= i < j < |setup.commands| ==> setup.commands[i] != setup.commands[j]
  }

  predicate AllPassed(setup: Setup, r: Run) {
    r.verified.Some? && FirstPassed(setup, r.checks, r.verified.value, |setup.commands|)
  }

  /** In review every command's latest check passed on the verified source, and a run
      is ready only with a clean review of that very source. */
  predicate Evidenced(setup: Setup, w: World) {
    && (w.hand.Checking? ==> w.hand.passed <= |setup.commands| && FirstPassed(setup, w.run.checks, w.hand.digest, w.hand.passed))
    && (w.run.stage.Review? || w.hand == Moving(Review) ==> AllPassed(setup, w.run))
    && (w.hand == Judged(true) ==> w.run.verified.Some? && w.run.review == Some(Verdict(w.run.verified.value, true)))
    && (w.run.status.ReadyForPr? ==>
          w.run.stage.Review? && w.run.verified.Some? && w.run.review == Some(Verdict(w.run.verified.value, true)))
  }

  lemma {:induction false} LatestPrefix(checks: seq<Check>, c: Check, n: nat, command: string)
    requires n <= |checks|
    ensures Latest(checks + [c], n, command) == Latest(checks, n, command)
  {
    if n > 0 {
      LatestPrefix(checks, c, n - 1, command);
    }
  }

  lemma LatestOneMore(checks: seq<Check>, c: Check, command: string)
    ensures Latest(checks + [c], |checks| + 1, command)
         == if c.command == command then Some(c) else Latest(checks, |checks|, command)
  {
    LatestPrefix(checks, c, |checks|, command);
  }

  lemma OneMorePassed(setup: Setup, checks: seq<Check>, digest: Digest, n: nat)
    requires DistinctCommands(setup) && n < |setup.commands| && FirstPassed(setup, checks, digest, n)
    ensures FirstPassed(setup, checks + [Check(setup.commands[n], digest, true)], digest, n + 1)
  {
    hide Latest;
    var c := Check(setup.commands[n], digest, true);
    forall i | 0 <= i < n + 1
      ensures LatestPassed(checks + [c], setup.commands[i], digest)
    {
      LatestOneMore(checks, c, setup.commands[i]);
      assert i < n ==> LatestPassed(checks, setup.commands[i], digest);
    }
  }

  lemma EvidencedStep(setup: Setup, w: World, e: Event)
    requires DistinctCommands(setup) && Shaped(w) && Evidenced(setup, w) && Legal(setup, w, e)
    ensures Evidenced(setup, Step(setup, w, e))
  {
    hide FirstPassed, DistinctCommands;
    if e.ReserveStep? {
      NonePassed(setup, w.run.checks, e.observed);
    } else if e.RunCheck? && e.succeeded {
      OneMorePassed(setup, w.run.checks, w.hand.digest, w.hand.passed);
    }
  }

  lemma NonePassed(setup: Setup, checks: seq<Check>, digest: Digest)
    ensures FirstPassed(setup, checks, digest, 0)
  {
  }

  lemma {:induction false} EvidencedAlways(setup: Setup, log: seq<Event>, n: nat)
    requires DistinctCommands(setup) && LegalLog(setup, log) && n <= |log|
    ensures Evidenced(setup, After(setup, log, n))
  {
    hide Shaped, Evidenced, Paid, Legal, Step, After, LegalLog, DistinctCommands;
    if n == 0 {
      Beginning(setup, log);
      NoEvidence(setup);
    } else {
      EvidencedAlways(setup, log, n - 1);
      PaidAlways(setup, log, n - 1);
      StepAfter(setup, log, n - 1);
      EvidencedStep(setup, After(setup, log, n - 1), log[n - 1]);
    }
  }

  lemma NoEvidence(setup: Setup)
    ensures Evidenced(setup, STARTED)
  {
  }

  /** In every reachable state that is ready for a pull request, each configured
      command's latest check succeeded on the verified source, the review names that
      source and found nothing, and the repairs are within their limit. */
  lemma ReadyMeans(setup: Setup, log: seq<Event>, n: nat)
    requires DistinctCommands(setup) && LegalLog(setup, log) && n <= |log|
    requires After(setup, log, n).run.status.ReadyForPr?
    ensures var r := After(setup, log, n).run;
            && r.verified.Some? && r.review == Some(Verdict(r.verified.value, true))
            && (forall c <- setup.commands :: LatestPassed(r.checks, c, r.verified.value))
            && r.repairs <= setup.repairs
  {
    hide Shaped, Paid, Legal, Step, After, LegalLog, LatestPassed, DistinctCommands;
    EvidencedAlways(setup, log, n);
    PaidAlways(setup, log, n);
  }

  // ---- A crash inside a step ----

  /** A step is in progress and its process is gone. */
  predicate Stranded(w: World) {
    w.run.inProgress.Some? && w.hand.Absent?
  }

  predicate SameButBlocked(a: Run, b: Run) {
    b == a || b == a.(status := Blocked, reason := b.reason)
  }

  lemma StrandedStep(setup: Setup, w: World, e: Event)
    requires Stranded(w) && Legal(setup, w, e)
    ensures Stranded(Step(setup, w, e)) && (e.Halt? || e.Crash?)
    ensures SameButBlocked(w.run, Step(setup, w, e).run)
  {
  }

  /** A step that a crash left in progress is never left again: no step, resume or
      refresh follows; recovery and a withdrawn publication only note it as blocked. */
  lemma {:induction false} StrandedForever(setup: Setup, log: seq<Event>, i: nat, n: nat)
    requires LegalLog(setup, log) && i <= n <= |log| && Stranded(After(setup, log, i))
    ensures Stranded(After(setup, log, n))
    ensures forall k :: i <= k < n ==> log[k].Halt? || log[k].Crash?
    ensures SameButBlocked(After(setup, log, i).run, After(setup, log, n).run)
  {
    hide Legal, Step, After, LegalLog, Stranded;
    if i < n {
      StrandedForever(setup, log, i, n - 1);
      StepAfter(setup, log, n - 1);
      StrandedStep(setup, After(setup, log, n - 1), log[n - 1]);
    }
  }
}
