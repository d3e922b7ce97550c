/** The loop that advances one agent run: a step is reserved, its model round or its
    checks run, and it is settled. */
module AgentLoop {
  import opened Results
  import opened Agent

  /** How the outside answers one question: yes, no, a refusal with its reason, or not
      at all because the process dies. */
  datatype Answer = Yes | No | Fails(reason: Reason) | Dies

  datatype Stopped = Died | Failed(reason: Reason)

  datatype Stepped = Settled | Untouched | Raised(reason: Reason) | Lost

  predicate IsWaiting(r: Reason) {
    r.ApprovalRequired? || r.StartRequired? || r.GateClosed? || r.Paused?
  }

  /** The failures that leave the run waiting for a person. */
  predicate AwaitsPerson(r: Reason) {
    r in {ApprovalRequired, StartRequired, GateClosed, Paused}
  }

  /** The reasons a stopped run may be resumed from. */
  predicate MayResume(r: Reason) {
    r in {Paused, BasisChanged, ModelCancelled, AgentCancelled}
  }

  /** The states in which a run starts over after its requirements were amended. */
  predicate StartsOver(r: Run) {
    && r.inProgress.None? && r.stage != Requirements
    && r.reason in {NoReason, ApprovalRequired, GateClosed, BasisChanged, ModelCancelled, AgentCancelled}
  }

  lemma ReasonsMean(r: Reason)
    ensures IsWaiting(r) <==> AwaitsPerson(r)
    ensures Resumable(r) <==> MayResume(r)
    ensures Refreshable(r) <==> r in {NoReason, ApprovalRequired, GateClosed, BasisChanged, ModelCancelled, AgentCancelled}
  {
  }

  /** The stage that follows, or a run ready for its pull request. */
  predicate Onward(before: Stage, after: Stage, status: Status) {
    if before == Review then after == Review && status == ReadyForPr else Leads(before, after) && status == Queued
  }

  /** A failure leaves the run blocked for its reason, or waiting for a person. */
  predicate Stands(before: Run, after: Run, reason: Reason) {
    after == before.(status := if AwaitsPerson(reason) then WaitingHuman else Blocked, reason := reason)
  }

  /** The reason a question is answered with, if not with yes. */
  function Refusal(a: Answer, otherwise: Reason): Option<Reason> {
    match a
    case No => Some(otherwise)
    case Fails(reason) => Some(reason)
    case _ => None
  }

  /** The run may take a step that uses no tools, and has a model call left for it. */
  predicate Unobstructed(setup: Setup, r: Run, calls: seq<bool>, overspent: bool) {
    && r.inProgress.None? && !r.status.Blocked? && !r.status.ReadyForPr? && !overspent
    && (!r.stage.Verification? ==> calls == [] && r.modelCalls < setup.modelCalls)
    && (r.stage.Review? ==> r.verified.Some?)
  }

  ghost predicate Follows(setup: Setup, log: seq<Event>, w: World) {
    LegalLog(setup, log) && After(setup, log, |log|) == w
  }

  lemma {:induction false} AfterPrefix(setup: Setup, log: seq<Event>, e: Event, n: nat)
    requires n <= |log|
    ensures After(setup, log + [e], n) == After(setup, log, n)
  {
    hide Agent.Step;
    if n > 0 {
      AfterPrefix(setup, log, e, n - 1);
    }
  }

  lemma OneAfter(setup: Setup, log: seq<Event>, n: nat)
    requires n < |log|
    ensures After(setup, log, n + 1) == Agent.Step(setup, After(setup, log, n), log[n])
  {
    hide Agent.Step;
  }

  lemma FollowsNext(setup: Setup, log: seq<Event>, w: World, e: Event)
    requires Follows(setup, log, w) && Legal(setup, w, e)
    ensures Follows(setup, log + [e], Agent.Step(setup, w, e))
  {
    hide Agent.Step, Legal, After;
    var longer := log + [e];
    forall n | 0 <= n < |longer|
      ensures LegalAt(setup, longer, n)
    {
      AfterPrefix(setup, log, e, n);
      assert n < |log| ==> LegalAt(setup, log, n);
    }
    AfterPrefix(setup, log, e, |log|);
    OneAfter(setup, longer, |log|);
  }

  lemma FollowsShaped(setup: Setup, log: seq<Event>, w: World)
    requires Follows(setup, log, w)
    ensures Shaped(w)
  {
    hide After, LegalLog, Shaped, Paid;
    PaidAlways(setup, log, |log|);
  }

  /** A process is inside its step and has not settled it. */
  predicate Busy(w: World) {
    !w.hand.Absent? && !w.hand.Closing?
  }

  // ---- What checks leave behind ----

  /** The configured commands ran in order on one source, all but the last passing. */
  predicate Appended(before: seq<Check>, after: seq<Check>, commands: seq<string>, digest: Digest) {
    && before <= after && |after| - |before| <= |commands|
    && forall i :: |before| <= i < |after| ==>
         after[i].command == commands[i - |before|] && after[i].digest == digest && (i < |after| - 1 ==> after[i].succeeded)
  }

  lemma AppendedNone(before: seq<Check>, commands: seq<string>, digest: Digest)
    ensures Appended(before, before, commands, digest)
  {
  }

  lemma AppendedMore(before: seq<Check>, after: seq<Check>, commands: seq<string>, digest: Digest, succeeded: bool)
    requires Appended(before, after, commands, digest) && |after| - |before| < |commands|
    requires |before| < |after| ==> after[|after| - 1].succeeded
    ensures Appended(before, after + [Check(commands[|after| - |before|], digest, succeeded)], commands, digest)
  {
  }

  /** All of them ran, and all passed. */
  predicate NoneFailed(before: seq<Check>, after: seq<Check>, commands: seq<string>, digest: Digest) {
    && Appended(before, after, commands, digest) && |after| == |before| + |commands|
    && (commands != [] ==> after[|after| - 1].succeeded)
  }

  /** They ran until one failed. */
  predicate OneFailed(before: seq<Check>, after: seq<Check>, commands: seq<string>, digest: Digest) {
    Appended(before, after, commands, digest) && |before| < |after| && !after[|after| - 1].succeeded
  }

  function Failures(checks: seq<Check>): nat {
    if checks == [] then 0
    else Failures(checks[..|checks| - 1]) + (if checks[|checks| - 1].succeeded then 0 else 1)
  }

  lemma {:induction false} FailuresPassed(before: seq<Check>, after: seq<Check>)
    requires before <= after && forall i :: |before| <= i < |after| ==> after[i].succeeded
    ensures Failures(after) == Failures(before)
  {
    if after == before {
    } else {
      FailuresPassed(before, after[..|after| - 1]);
    }
  }

  /** Passing checks count nothing, and a run of checks that failed counts one. */
  lemma FailuresOf(before: seq<Check>, after: seq<Check>, commands: seq<string>, digest: Digest)
    requires Appended(before, after, commands, digest)
    ensures Failures(after) - Failures(before) == if |before| < |after| && !after[|after| - 1].succeeded then 1 else 0
  {
    if before < after {
      FailuresPassed(before, after[..|after| - 1]);
    }
  }

  /** Every failed check since is paid from the repair budget. */
  predicate PaidFor(before: Run, after: Run) {
    before.checks <= after.checks && after.repairs - before.repairs == Failures(after.checks) - Failures(before.checks)
  }

  /** A review was recorded for the verified source: clean, and the run is ready, or
      with findings, and one more repair is paid. */
  predicate Reviewed(before: Run, after: Run) {
    && before.verified.Some? && after.verified == before.verified && after.review.Some?
    && after.review.value.digest == before.verified.value && after.checks == before.checks
    && if after.review.value.clean then after.status.ReadyForPr? && after.reason.NoReason? && after.stage.Review? && after.repairs == before.repairs
       else after.stage.Implementation? && after.status.Queued? && after.repairs == before.repairs + 1
  }

  lemma PaidChecks(before: Run, after: Run, commands: seq<string>, digest: Digest, failed: bool)
    requires if failed then OneFailed(before.checks, after.checks, commands, digest)
             else NoneFailed(before.checks, after.checks, commands, digest)
    requires after.repairs == before.repairs + if failed then 1 else 0
    ensures PaidFor(before, after)
  {
    hide Failures;
    FailuresOf(before.checks, after.checks, commands, digest);
  }

  class Loop {
    const setup: Setup
    var run: Run
    /** What the outside will answer, question by question; yes once used up. */
    var answers: seq<Answer>
    ghost var world: World
    ghost var log: seq<Event>

    ghost predicate Valid()
      reads this
    {
      Follows(setup, log, world) && world.run == run
    }

    constructor (setup: Setup)
      ensures Valid() && this.setup == setup && run == STARTED.run && log == [] && world == STARTED
    {
      this.setup := setup;
      run, answers := STARTED.run, [];
      world, log := STARTED, [];
      new;
      Nothing();
    }

    lemma Nothing()
      ensures Follows(setup, [], STARTED)
    {
    }

    method Ask() returns (a: Answer)
      modifies this`answers
      ensures old(answers) == [] ==> a == Yes && answers == []
      ensures old(answers) != [] ==> a == old(answers)[0] && answers == old(answers)[1..]
    {
      if answers == [] {
        return Yes;
      }
      a := answers[0];
      answers := answers[1..];
    }

    /** A question whose only good answer is yes. */
    method Require(otherwise: Reason) returns (s: Option<Stopped>)
      modifies this`answers
      ensures old(answers) == [] ==> s.None? && answers == []
      ensures old(answers) != [] ==>
                && answers == old(answers)[1..]
                && (s == Some(Died) <==> old(answers)[0].Dies?)
                && (!old(answers)[0].Dies? ==>
                      var why := Refusal(old(answers)[0], otherwise);
                      s == if why.Some? then Some(Failed(why.value)) else None)
    {
      var a := Ask();
      s := match a
           case Yes => None
           case No => Some(Failed(otherwise))
           case Fails(reason) => Some(Failed(reason))
           case Dies => Some(Died);
    }

    /** One durable change, or one move of the live process. */
    method Happen(e: Event)
      requires Valid() && Legal(setup, world, e)
      requires !e.ReserveStep? && !e.RunCheck? && !e.Verify? && !e.Judge? && !e.Move?
      modifies this`run, this`world, this`log
      ensures Valid() && world == Agent.Step(setup, old(world), e) && log == old(log) + [e]
    {
      hide Follows, Legal;
      FollowsNext(setup, log, world, e);
      match e {
        case Consume => run := run.(modelCalls := run.modelCalls + 1);
        case ToolCheck(check) => run := run.(checks := run.checks + [check]);
        case ToolRepair => run := run.(repairs := run.repairs + 1);
        case Repair => run := run.(repairs := run.repairs + 1);
        case Advance => Transition(Next(run.stage));
        case Ready => run := run.(status := ReadyForPr, reason := NoReason);
        case Complete => if run.status.Running? { run := run.(status := Queued); }
        case Fail(reason) => run := run.(status := Blocked, reason := reason);
        case Checkpoint(overspent) =>
          run := run.(inProgress := None);
          if overspent { run := run.(status := Blocked, reason := ActiveBudget); }
        case Wait(blocked, reason) => run := run.(status := if blocked then Blocked else WaitingHuman, reason := reason);
        case Refresh => Transition(Requirements);
        case Resume => run := run.(status := Queued, reason := NoReason);
        case Halt(reason) => run := run.(status := Blocked, reason := reason);
        case _ =>
      }
      world := Agent.Step(setup, world, e);
      log := log + [e];
    }

    method Transition(s: Stage)
      modifies this`run
      ensures run == Moved(old(run), s)
    {
      run := run.(stage := s, status := Queued, reason := NoReason);
    }

    method Reserve(observed: Digest)
      requires Valid() && Legal(setup, world, ReserveStep(observed))
      modifies this`run, this`world, this`log
      ensures Valid() && world == Agent.Step(setup, old(world), ReserveStep(observed)) && log == old(log) + [ReserveStep(observed)]
    {
      hide Follows, Legal;
      FollowsNext(setup, log, world, ReserveStep(observed));
      run := run.(inProgress := Some(run.stage), sequence := run.sequence + 1, status := Running, reason := NoReason);
      world := Agent.Step(setup, world, ReserveStep(observed));
      log := log + [ReserveStep(observed)];
    }

    /** One configured check, recorded with its outcome. */
    method Record(command: string, digest: Digest, succeeded: bool)
      requires Valid() && Legal(setup, world, RunCheck(succeeded))
      requires command == setup.commands[world.hand.passed] && digest == world.hand.digest
      modifies this`run, this`world, this`log
      ensures Valid() && world == Agent.Step(setup, old(world), RunCheck(succeeded)) && world.again == old(world).again
    {
      hide Follows;
      FollowsNext(setup, log, world, RunCheck(succeeded));
      run := run.(checks := run.checks + [Check(command, digest, succeeded)]);
      world := Agent.Step(setup, world, RunCheck(succeeded));
      log := log + [RunCheck(succeeded)];
    }

    method RecordVerified(digest: Digest)
      requires Valid() && Legal(setup, world, Event.Verify) && digest == world.hand.digest
      modifies this`run, this`world, this`log
      ensures Valid() && world == Agent.Step(setup, old(world), Event.Verify) && world.again == old(world).again
    {
      hide Follows;
      FollowsNext(setup, log, world, Event.Verify);
      run := run.(verified := Some(digest));
      world := Agent.Step(setup, world, Event.Verify);
      log := log + [Event.Verify];
    }

    method RecordReview(clean: bool)
      requires Valid() && Legal(setup, world, Event.Judge(clean))
      modifies this`run, this`world, this`log
      ensures Valid() && world == Agent.Step(setup, old(world), Event.Judge(clean)) && world.again == old(world).again
    {
      hide Follows;
      FollowsNext(setup, log, world, Event.Judge(clean));
      run := run.(review := Some(Verdict(run.verified.value, clean)));
      world := Agent.Step(setup, world, Event.Judge(clean));
      log := log + [Event.Judge(clean)];
    }

    method MoveTo(s: Stage)
      requires Valid() && world.hand == Moving(s)
      modifies this`run, this`world, this`log
      ensures Valid() && world == Agent.Step(setup, old(world), Event.Move) && world.again == old(world).again
    {
      hide Follows;
      FollowsNext(setup, log, world, Event.Move);
      Transition(s);
      world := Agent.Step(setup, world, Event.Move);
      log := log + [Event.Move];
    }

    /** A repair, while the budget lasts. */
    method ConsumeRepair() returns (s: Option<Stopped>)
      requires Valid() && (world.hand.CheckFailed? || world.hand == Judged(false))
      modifies this
      ensures Valid() && Busy(world) && answers == old(answers) && world.again == old(world).again
      ensures s == if old(run).repairs < setup.repairs then None else Some(Failed(RepairBudget))
      ensures s.None? ==> world.hand == Moving(Implementation) && run == old(run).(repairs := old(run).repairs + 1)
      ensures s.Some? ==> run == old(run) && log == old(log)
    {
      hide Follows;
      if run.repairs >= setup.repairs {
        return Some(Failed(RepairBudget));
      }
      Happen(Event.Repair);
      s := None;
    }

    /** The configured commands in order, until one fails; a failure is released for
        repair and paid from the repair budget. */
    method Checks(observed: Digest) returns (s: Option<Stopped>, failed: bool)
      requires Valid() && world.hand == Checking(observed, 0)
      modifies this
      ensures Valid() && Busy(world) && run == old(run).(checks := run.checks, repairs := run.repairs) && world.again == old(world).again
      ensures Appended(old(run).checks, run.checks, setup.commands, observed)
      ensures s.None? ==> world.hand == if failed then Moving(Implementation) else Checking(observed, |setup.commands|)
      ensures s.None? && !failed ==> NoneFailed(old(run).checks, run.checks, setup.commands, observed)
      ensures s.None? && failed ==> OneFailed(old(run).checks, run.checks, setup.commands, observed)
      ensures run.repairs == old(run).repairs + if s.None? && failed then 1 else 0
      ensures old(answers) == [] ==> s.None? && !failed && answers == []
    {
      hide Follows, Appended;
      s, failed := None, false;
      AppendedNone(run.checks, setup.commands, observed);
      var index := 0;
      while index < |setup.commands|
        invariant Valid() && index <= |setup.commands| && world.hand == Checking(observed, index) && world.again == old(world).again
        invariant old(answers) == [] ==> answers == []
        invariant run == old(run).(checks := run.checks) && |run.checks| == |old(run).checks| + index
        invariant Appended(old(run).checks, run.checks, setup.commands, observed)
        invariant index > 0 ==> run.checks[|run.checks| - 1].succeeded
      {
        s := Require(BasisChanged);
        if s.Some? { return; }
        var passed := Ask();
        if passed.Dies? { return Some(Died), false; }
        if passed.Fails? { return Some(Failed(passed.reason)), false; }
        AppendedMore(old(run).checks, run.checks, setup.commands, observed, passed.Yes?);
        Record(setup.commands[index], observed, passed.Yes?);
        s := Require(WorkspaceChanged);
        if s.Some? { return; }
        if passed.No? {
          s := Require(OtherReason("AGENT_VERIFICATION_BLOCKED"));
          if s.Some? { return; }
          failed := true;
          s := ConsumeRepair();
          return;
        }
        index := index + 1;
      }
      s := None;
    }

    /** A verification step: all commands pass and the run goes to review, or one
        fails and it goes back to the implementation. */
    method VerificationStep(observed: Digest) returns (s: Option<Stopped>)
      requires Valid() && world.hand == Checking(observed, 0)
      modifies this
      ensures Valid() && run.sequence == old(run).sequence && run.modelCalls == old(run).modelCalls && Busy(world)
      ensures run.inProgress == old(run).inProgress && world.again == old(world).again
      ensures s.None? ==> world.hand.Leaving? && run.status.Queued?
      ensures s.None? ==>
                || (&& run.stage.Implementation? && run.repairs == old(run).repairs + 1
                    && OneFailed(old(run).checks, run.checks, setup.commands, observed))
                || (&& run.stage.Review? && run.verified == Some(observed) && run.repairs == old(run).repairs
                    && NoneFailed(old(run).checks, run.checks, setup.commands, observed))
      ensures old(answers) == [] ==> s.None? && answers == [] && run.stage.Review?
    {
      hide Follows, Appended;
      var failed;
      s, failed := Checks(observed);
      if s.Some? { return; }
      if failed {
        MoveTo(Implementation);
        return;
      }
      s := Require(WorkspaceChanged);
      if s.Some? { return; }
      RecordVerified(observed);
      MoveTo(Review);
    }

    /** The checks as a tool of the model, in the stages that offer it. */
    method ToolChecks(observed: Digest) returns (s: Option<Stopped>, failed: bool)
      requires Valid() && world.hand.Answered? && MayRunChecks(run.stage)
      modifies this
      ensures Valid() && world.hand.Answered? && run == old(run).(checks := run.checks, repairs := run.repairs) && world.again == old(world).again
      ensures Appended(old(run).checks, run.checks, setup.commands, observed)
      ensures s.None? && !failed ==> NoneFailed(old(run).checks, run.checks, setup.commands, observed)
      ensures s.None? && failed ==> OneFailed(old(run).checks, run.checks, setup.commands, observed)
      ensures run.repairs == old(run).repairs + if s.None? && failed then 1 else 0
      ensures failed && old(run).repairs >= setup.repairs ==> s == Some(Failed(RepairBudget))
      ensures old(answers) == [] ==> s.None? && !failed && answers == []
    {
      hide Follows, Appended;
      s, failed := None, false;
      AppendedNone(run.checks, setup.commands, observed);
      var index := 0;
      while index < |setup.commands|
        invariant old(answers) == [] ==> answers == []
        invariant Valid() && index <= |setup.commands| && world.hand.Answered? && world.again == old(world).again
        invariant run == old(run).(checks := run.checks) && |run.checks| == |old(run).checks| + index
        invariant Appended(old(run).checks, run.checks, setup.commands, observed)
        invariant index > 0 ==> run.checks[|run.checks| - 1].succeeded
      {
        s := Require(BasisChanged);
        if s.Some? { return; }
        var passed := Ask();
        if passed.Dies? { return Some(Died), false; }
        if passed.Fails? { return Some(Failed(passed.reason)), false; }
        AppendedMore(old(run).checks, run.checks, setup.commands, observed, passed.Yes?);
        Happen(ToolCheck(Check(setup.commands[index], observed, passed.Yes?)));
        s := Require(WorkspaceChanged);
        if s.Some? { return; }
        if passed.No? {
          s := Require(OtherReason("AGENT_VERIFICATION_BLOCKED"));
          if s.Some? { return; }
          failed := true;
          if run.repairs >= setup.repairs { return Some(Failed(RepairBudget)), true; }
          Happen(ToolRepair);
          return;
        }
        index := index + 1;
      }
      s := None;
    }

    /** The tool calls of one answer; `calls` says which of them run the checks. */
    method UseTools(calls: seq<bool>, observed: Digest) returns (s: Option<Stopped>)
      requires Valid() && world.hand.Answered?
      modifies this
      ensures Valid() && world.hand.Answered? && run == old(run).(checks := run.checks, repairs := run.repairs) && world.again == old(world).again
      ensures s.None? ==> PaidFor(old(run), run)
      ensures !(old(run).stage == Implementation || old(run).stage == TestGeneration) ==>
                run == old(run) && (s.None? ==> forall i :: 0 <= i < |calls| ==> !calls[i])
      ensures old(answers) == [] && (old(run).stage == Implementation || old(run).stage == TestGeneration) ==>
                s.None? && answers == []
    {
      hide Follows, Appended, NoneFailed, OneFailed, Failures;
      var i := 0;
      while i < |calls|
        invariant old(answers) == [] ==> answers == []
        invariant i <= |calls| && world.again == old(world).again
        invariant Valid() && world.hand.Answered? && run == old(run).(checks := run.checks, repairs := run.repairs)
        invariant PaidFor(old(run), run)
        invariant !(old(run).stage == Implementation || old(run).stage == TestGeneration) ==>
                    run == old(run) && forall j :: 0 <= j < i ==> !calls[j]
      {
        s := Require(BasisChanged);
        if s.Some? { return; }
        if calls[i] {
          if !MayRunChecks(run.stage) { return Some(Failed(OtherReason("AGENT_TOOL_DENIED"))); }
          ghost var before := run;
          var failed;
          s, failed := ToolChecks(observed);
          if s.Some? { return; }
          PaidChecks(before, run, setup.commands, observed, failed);
        }
        i := i + 1;
      }
      s := None;
    }

    /** One model call and what its answer leads to. */
    method ModelRound(calls: seq<bool>, observed: Digest) returns (s: Option<Stopped>)
      requires Valid() && world.hand.Asking?
      modifies this
      ensures Valid() && run.sequence == old(run).sequence && Busy(world)
      ensures run.inProgress == old(run).inProgress && world.again == old(world).again
      ensures old(run).modelCalls >= setup.modelCalls ==> s.Some? && run == old(run)
      ensures old(run).modelCalls <= run.modelCalls <= old(run).modelCalls + 1
      ensures s.None? ==> run.modelCalls == old(run).modelCalls + 1
      ensures s.None? && calls != [] ==> PaidFor(old(run), run) && run.stage == old(run).stage && run.status == old(run).status && world.hand.Answered?
      ensures s.None? && calls == [] && !old(run).stage.Review? ==>
                && Leads(old(run).stage, run.stage)
                && run == old(run).(stage := run.stage, status := Queued, reason := NoReason, modelCalls := run.modelCalls)
      ensures !(old(run).stage == Implementation || old(run).stage == TestGeneration) && calls != [] ==>
                && run == old(run).(modelCalls := run.modelCalls)
                && (s.None? ==> forall i :: 0 <= i < |calls| ==> !calls[i])
      ensures s.None? && calls == [] && old(run).stage.Review? ==> Reviewed(old(run), run)
      ensures s.None? ==> world.hand.Leaving? || world.hand.Answered?
      ensures old(answers) == [] && calls == [] && old(run).modelCalls < setup.modelCalls
              && (old(run).stage.Review? ==> old(run).verified.Some?)
              ==> s.None? && answers == [] && world.hand.Leaving? && Onward(old(run).stage, run.stage, run.status)
    {
      hide Follows;
      s := Require(BasisChanged);
      if s.Some? { return; }
      if run.modelCalls >= setup.modelCalls { return Some(Failed(OtherReason("MODEL_BUDGET"))); }
      Happen(Consume);
      s := Require(BasisChanged);
      if s.Some? { return; }
      if calls != [] {
        s := UseTools(calls, observed);
        return;
      }
      s := Require(BasisChanged);
      if s.Some? { return; }
      ModelStage();
      if run.stage.Review? {
        s := ReviewRound();
      } else {
        Happen(Event.Advance);
      }
    }

    lemma ModelStage()
      requires Valid() && world.hand.Answered?
      ensures !run.stage.Verification? && Shaped(world)
    {
      hide Follows;
      FollowsShaped(setup, log, world);
    }

    /** A review is recorded for the verified source only; findings go to repair. */
    method ReviewRound() returns (s: Option<Stopped>)
      requires Valid() && world.hand.Answered? && run.stage.Review?
      modifies this
      ensures Valid() && run.sequence == old(run).sequence && Busy(world) && (s.None? ==> world.hand.Leaving?)
      ensures run.inProgress == old(run).inProgress && world.again == old(world).again
      ensures run.modelCalls == old(run).modelCalls && (s.None? ==> Reviewed(old(run), run))
      ensures s.None? && run.status.ReadyForPr? ==> run.verified.Some? && run.review == Some(Verdict(run.verified.value, true))
      ensures old(answers) == [] && old(run).verified.Some? ==>
                s.None? && answers == [] && run.stage.Review? && run.status.ReadyForPr?
    {
      hide Follows;
      s := Require(WorkspaceChanged);
      if s.Some? { return; }
      if run.verified.None? { return Some(Failed(WorkspaceChanged)); }
      var clean := Ask();
      if clean.Dies? { return Some(Died); }
      if clean.Fails? { return Some(Failed(clean.reason)); }
      RecordReview(clean.Yes?);
      if clean.Yes? {
        Happen(Event.Ready);
        return None;
      }
      s := ConsumeRepair();
      if s.Some? { return; }
      MoveTo(Implementation);
    }

    /** One step. A run that starts over after an amendment does so first; a blocked or
        ready one, and one that may not go on, is left with its reason. What the step
        does is reserved before it is done; `failure` is what it failed with, and blocks
        the run; a process that dies leaves the reservation; and with nothing in its way
        the step takes the run to its next stage. */
    method Step(script: seq<Answer>, amended: bool, calls: seq<bool>, observed: Digest, overspent: bool)
      returns (r: Stepped, ghost failure: Option<Reason>)
      requires Valid() && world.hand.Absent?
      modifies this
      ensures Valid() && world.hand.Absent?
      ensures old(run).inProgress.Some? ==> r == Raised(RecoveryRequired) && run == old(run) && log == old(log)
      ensures r.Settled? ==> run.inProgress.None? && run.sequence == old(run).sequence + 1
      ensures r.Untouched? ==> run.sequence == old(run).sequence && run.inProgress.None?
      ensures r.Lost? && run.sequence > old(run).sequence ==> run.inProgress.Some?
      ensures r.Settled? ==> Ended(run, failure, overspent)
      ensures !(amended && StartsOver(old(run))) ==> world.again == old(world).again
      ensures old(run).inProgress.None? && !(amended && StartsOver(old(run))) ==>
                && (old(run).status.Blocked? ==> r.Untouched? && run == old(run) && log == old(log))
                && (!old(run).status.Blocked? && script != [] && Refusal(script[0], GateClosed).Some? ==>
                      r.Untouched? && Stands(old(run), run, Refusal(script[0], GateClosed).value))
      ensures amended && StartsOver(old(run)) ==>
                && (r.Settled? ==> world.again == old(world).again + 1)
                && (script != [] && Refusal(script[0], OtherReason("AGENT_REFRESH_DENIED")).Some? ==>
                      && r.Untouched?
                      && run == old(run).(status := Blocked, reason := Refusal(script[0], OtherReason("AGENT_REFRESH_DENIED")).value))
      ensures script == [] && amended && StartsOver(old(run))
              && (calls == [] && old(run).modelCalls < setup.modelCalls && !overspent) ==>
                r.Settled? && run.stage == Design && run.status.Queued?
      ensures script == [] && !amended && Unobstructed(setup, old(run), calls, overspent) ==>
                r.Settled? && Onward(old(run).stage, run.stage, run.status)
    {
      hide Follows, Refreshable;
      answers, failure := script, None;
      if run.inProgress.Some? {
        return Raised(RecoveryRequired), None;
      }
      ReasonsMean(run.reason);
      var s: Option<Stopped> := None;
      if amended && Refreshable(run.reason) && !run.stage.Requirements? {
        s := Require(OtherReason("AGENT_REFRESH_DENIED"));
        if s == Some(Died) { return Lost, None; }
        if s.Some? {
          Happen(Wait(true, s.value.reason));
          return Untouched, None;
        }
        Happen(Event.Refresh);
      }
      r, failure := Guarded(calls, observed, overspent);
    }

    /** The step of a run that is settled: whether it may go on, and the step itself. */
    method Guarded(calls: seq<bool>, observed: Digest, overspent: bool) returns (r: Stepped, ghost failure: Option<Reason>)
      requires Valid() && Idle(world)
      modifies this
      ensures Valid() && world.hand.Absent? && world.again == old(world).again
      ensures r.Settled? ==> run.inProgress.None? && run.sequence == old(run).sequence + 1
      ensures r.Untouched? ==> run.sequence == old(run).sequence && run.inProgress.None?
      ensures r.Lost? && run.sequence > old(run).sequence ==> run.inProgress.Some?
      ensures r.Settled? ==> Ended(run, failure, overspent)
      ensures !r.Raised?
      ensures old(run).status.Blocked? ==> r.Untouched? && run == old(run) && log == old(log)
      ensures !old(run).status.Blocked? && old(answers) != [] && Refusal(old(answers)[0], GateClosed).Some? ==>
                r.Untouched? && Stands(old(run), run, Refusal(old(answers)[0], GateClosed).value)
      ensures old(run).status.ReadyForPr? && old(answers) == [] ==> r.Untouched? && run == old(run) && log == old(log)
      ensures old(run).status.ReadyForPr? ==> run.sequence == old(run).sequence && !r.Settled?
      ensures !old(run).status.Blocked? && !old(run).status.ReadyForPr? && |old(answers)| >= 2 && old(answers)[0].Yes?
              && Refusal(old(answers)[1], ActiveBudget).Some? ==>
                r.Untouched? && run == old(run).(status := Blocked, reason := ActiveBudget)
      ensures old(answers) == [] && Unobstructed(setup, old(run), calls, overspent) ==>
                r.Settled? && Onward(old(run).stage, run.stage, run.status)
    {
      hide Follows, IsWaiting;
      failure := None;
      if run.status.Blocked? {
        return Untouched, None;
      }
      var s := Require(GateClosed);
      if s.None? && run.status.ReadyForPr? {
        s := Require(WorkspaceChanged);
        if s.None? { return Untouched, None; }
      }
      if s == Some(Died) { return Lost, None; }
      if s.Some? {
        ReasonsMean(s.value.reason);
        var blocked := !IsWaiting(s.value.reason);
        if run.status != (if blocked then Blocked else WaitingHuman) || run.reason != s.value.reason {
          Happen(Wait(blocked, s.value.reason));
        }
        return Untouched, None;
      }
      var affordable := Ask();
      if affordable.Dies? { return Lost, None; }
      if !affordable.Yes? {
        Happen(Wait(true, ActiveBudget));
        return Untouched, None;
      }
      Reserve(observed);
      r, failure := Reserved(calls, observed, overspent);
    }

    /** How a settled step leaves the run: blocked for its failure or an overspent
        budget, and otherwise queued or ready. */
    ghost predicate Ended(r: Run, failure: Option<Reason>, overspent: bool) {
      && r.inProgress.None?
      && (overspent ==> r.status == Blocked && r.reason == ActiveBudget)
      && (!overspent && failure.Some? ==> r.status == Blocked && r.reason == failure.value)
      && (!overspent && failure.None? ==> r.status == Queued || r.status == ReadyForPr)
    }

    /** The reserved step, from the first effect to the checkpoint. */
    method Reserved(calls: seq<bool>, observed: Digest, overspent: bool) returns (r: Stepped, ghost failure: Option<Reason>)
      requires Valid() && (world.hand.Asking? || world.hand == Checking(observed, 0)) && run.status.Running?
      modifies this
      ensures Valid() && world.hand.Absent? && world.again == old(world).again
      ensures run.sequence == old(run).sequence && (r.Settled? ==> Ended(run, failure, overspent))
      ensures r.Settled? || r.Lost?
      ensures r.Lost? ==> run.inProgress.Some?
      ensures old(answers) != [] && Refusal(old(answers)[0], AgentCancelled).Some? ==>
                r.Settled? && failure == Refusal(old(answers)[0], AgentCancelled) && run.checks == old(run).checks
      ensures old(answers) == [] && !overspent
              && (old(world).hand.Asking? ==> calls == [] && old(run).modelCalls < setup.modelCalls)
              && (old(run).stage.Review? ==> old(run).verified.Some?)
              ==> r.Settled? && Onward(old(run).stage, run.stage, run.status)
    {
      hide Follows, OneFailed, NoneFailed, PaidFor, Appended, Unobstructed, Shaped;
      InStep();
      failure := None;
      var s := Require(AgentCancelled);
      if s.None? {
        if run.inProgress == Some(Verification) {
          s := VerificationStep(observed);
        } else {
          s := ModelRound(calls, observed);
        }
      }
      if s == Some(Died) {
        Happen(Event.Crash);
        return Lost, None;
      }
      if s.Some? { failure := Some(s.value.reason); }
      Checkpoint(if s.Some? then Some(s.value.reason) else None, overspent);
      r := Settled;
    }

    /** The step is settled: a failure blocks the run, and so does an overspent budget. */
    method Checkpoint(failure: Option<Reason>, overspent: bool)
      requires Valid() && Busy(world) && (failure.None? ==> world.hand.Leaving? || world.hand.Answered?)
      requires failure.None? ==> run.status.Running? || run.status.Queued? || run.status.ReadyForPr?
      modifies this
      ensures Valid() && world.hand.Absent? && world.again == old(world).again && Ended(run, failure, overspent)
      ensures run == old(run).(inProgress := None, status := run.status, reason := run.reason)
      ensures failure.None? && !overspent && !old(run).status.Running? ==> run.status == old(run).status
    {
      hide Follows;
      if failure.Some? {
        Happen(Event.Fail(failure.value));
      } else {
        Happen(Event.Complete);
      }
      Happen(Event.Checkpoint(overspent));
    }

    lemma InStep()
      requires Valid() && (world.hand.Asking? || world.hand.Checking?)
      ensures run.inProgress.Some? && (run.inProgress == Some(Verification) <==> world.hand.Checking?)
      ensures run.stage.Verification? <==> world.hand.Checking?
    {
      hide Follows;
      FollowsShaped(setup, log, world);
    }

    /** Recovery re-observes and blocks; it never reissues a call. */
    method Recover()
      requires Valid()
      modifies this
      ensures Valid() && run == old(run).(status := Blocked, reason := RecoveryRequired)
      ensures log == old(log) + [Halt(RecoveryRequired)]
    {
      hide Follows;
      Happen(Halt(RecoveryRequired));
    }

    /** Only a run stopped for one of these reasons and settled resumes, exactly if its
        gate is open; nothing but its status and reason changes. */
    method Resume(script: seq<Answer>) returns (r: Stepped)
      requires Valid() && world.hand.Absent?
      modifies this
      ensures Valid() && world.hand.Absent?
      ensures r.Settled? ==> run == old(run).(status := Queued, reason := NoReason) && log == old(log) + [Event.Resume]
      ensures !r.Settled? ==> run == old(run) && log == old(log)
      ensures !(script != [] && script[0].Dies?) ==>
                (r.Settled? <==>
                   && MayResume(old(run).reason) && old(run).inProgress.None?
                   && (script == [] || Refusal(script[0], GateClosed).None?))
      ensures !(MayResume(old(run).reason) && old(run).inProgress.None?) ==> r == Raised(OtherReason("AGENT_RESUME_DENIED"))
    {
      hide Follows, Resumable;
      answers := script;
      ReasonsMean(run.reason);
      if !Resumable(run.reason) || run.inProgress.Some? {
        return Raised(OtherReason("AGENT_RESUME_DENIED"));
      }
      var s := Require(GateClosed);
      if s == Some(Died) { return Lost; }
      if s.Some? { return Raised(s.value.reason); }
      Happen(Event.Resume);
      r := Settled;
    }
  }
}
