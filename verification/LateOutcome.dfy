/** A history in which an ended run is rewritten: recovery settles a run that a
    driver still watches, the driver's grace runs out, and recovery settles again. */
module LateOutcome {
  import opened Results
  import opened Workflow
  import opened X = Execution
  import A = Approvals

  const SEEN := View(Source("content", true, "1"), map[7 := Posted(5, true, false, "comment")], {5},
                     map[RequirementApprover := {5}], "config", OnApproval, Automatic, {}, {})

  const CAPTURED := Task("config", SEEN.issue, 1, SEEN.issue, 0, 0, [], None, None, false, None, None, None,
                         false, false, false, 1, OnApproval, Automatic, None, InRequirements, Queued)

  const NORMALIZED := CAPTURED.(epoch := 2, requirementsCount := 1, phase := AtRequirementGate, status := WaitingHuman,
                                requirements := Some(Requirements(1, "document", SEEN.issue, [], false)))

  const APPROVED := NORMALIZED.(requirementApproval := Some(Proof(7, 5, "comment", [RequirementApprover])), started := true,
                                phase := InDesign, status := Queued)

  const DESIGNED := APPROVED.(epoch := 3, designCount := 1, design := Some(Design(1, "design", 1, false)),
                              phase := InImplementation)

  const ENTRY := Execution.Execution("run", RunStatus.Reserved, "plan", 3, 1, 1, "config", NoReason, false)

  /** The task with its run in a status. */
  function With(status: RunStatus, reason: Reason, shown: Status): Task {
    DESIGNED.(execution := Some(ENTRY.(status := status, reason := reason)), status := shown)
  }

  const RESERVED := With(RunStatus.Reserved, NoReason, Queued)
  const DISPATCHED := With(Dispatching, NoReason, Executing)
  const RUNNING := With(Running, NoReason, Executing)
  const FAILED := With(RunStatus.Failed, CommandExit, FailedRun)
  const UNCERTAIN := With(Uncertain, OtherReason("TERMINATION_UNCONFIRMED"), Blocked)
  const SUCCEEDED := With(Succeeded, NoReason, Queued)

  /** The world around such a task. */
  function Around(t: Task, recorded: set<(string, RunStatus)>, lock: Lock, drivers: set<string>): World {
    World(t, if t.execution.Some? then map["run" := t.execution.value] else map[], recorded, lock, drivers)
  }

  const R0: set<(string, RunStatus)> := {("run", RunStatus.Reserved)}
  const R1 := R0 + {("run", Dispatching)}
  const R2 := R1 + {("run", Running)}
  const R3 := R2 + {("run", RunStatus.Failed)}
  const R4 := R3 + {("run", Uncertain)}
  const R5 := R4 + {("run", Succeeded)}

  const REWRITTEN := [
    Other(SEEN, Normalizing("document", false)),
    Other(SEEN, Commanding(7, ApproveRequirements(1, None, None))),
    Other(SEEN, Proposing("design", 1, false)),
    Event.Reserve(SEEN, "run", "plan"),
    Event.Dispatch(SEEN, "run"),
    CallRunner("run"),
    Report(SEEN, "run", Running, NoReason, false, Launcher),
    Report(SEEN, "run", RunStatus.Failed, CommandExit, false, Recovery),
    Report(SEEN, "run", Uncertain, OtherReason("TERMINATION_UNCONFIRMED"), false, Grace),
    Report(SEEN, "run", Succeeded, NoReason, false, Recovery),
    Event.Reserve(SEEN, "another", "plan")]

  /** The worlds between the events. */
  function Stage(n: nat): World
    requires n <= 10
  {
    if n == 0 then Around(CAPTURED, {}, Free, {})
    else if n == 1 then Around(NORMALIZED, {}, Free, {})
    else if n == 2 then Around(APPROVED, {}, Free, {})
    else if n == 3 then Around(DESIGNED, {}, Free, {})
    else if n == 4 then Around(RESERVED, R0, Free, {})
    else if n == 5 then Around(DISPATCHED, R1, Armed("run"), {})
    else if n == 6 then Around(DISPATCHED, R1, Launched("run"), {})
    else if n == 7 then Around(RUNNING, R2, Free, {"run"})
    else if n == 8 then Around(FAILED, R3, Free, {"run"})
    else if n == 9 then Around(UNCERTAIN, R4, Free, {})
    else Around(SUCCEEDED, R5, Free, {})
  }

  // ---- The commits, one by one ----

  lemma Captures()
    ensures Fresh(SEEN) == CAPTURED
  {
  }

  lemma Normalizes()
    ensures Apply(CAPTURED, SEEN, Normalizing("document", false)) == Next(NORMALIZED)
  {
  }

  lemma ProofHolds()
    ensures ProofRefusal(SEEN, APPROVED.requirementApproval).None?
    ensures BasisRefusal(APPROVED, SEEN, false).None? && BasisRefusal(DESIGNED, SEEN, true).None?
  {
    assert HoldsRoles(SEEN, 5, [RequirementApprover]);
  }

  lemma Approves()
    ensures Apply(NORMALIZED, SEEN, Commanding(7, ApproveRequirements(1, None, None))) == Next(APPROVED)
  {
    assert ApprovalRoles(NORMALIZED, SEEN, None) == [RequirementApprover];
    assert RoleRefusal(SEEN, 5, RequirementApprover).None?;
    assert HoldsRoles(SEEN, SEEN.comments[7].actor, [RequirementApprover]);
  }

  lemma Proposes()
    ensures Apply(APPROVED, SEEN, Proposing("design", 1, false)) == Next(DESIGNED)
  {
    hide BasisRefusal;
    ProofHolds();
  }

  lemma Reserves()
    ensures Apply(DESIGNED, SEEN, Reserving("run", "plan")) == Next(RESERVED)
  {
    hide BasisRefusal;
    ProofHolds();
  }

  lemma BasisKept(status: RunStatus, reason: Reason, shown: Status)
    ensures BasisRefusal(With(status, reason, shown), SEEN, true).None?
    ensures BasisLoss(With(status, reason, shown), SEEN, With(status, reason, shown).execution.value).None?
  {
    hide ProofRefusal;
    ProofHolds();
  }

  lemma Records(from: RunStatus, why: Reason, shown: Status, status: RunStatus, reason: Reason)
    ensures var t := With(from, why, shown);
            Apply(t, SEEN, Recording("run", status, reason, false))
              == Next(With(status, reason, Settle(With(status, reason, Queued)).status))
  {
  }

  lemma Shown()
    ensures Settle(With(Dispatching, NoReason, Queued)).status == Executing
    ensures Settle(With(Running, NoReason, Queued)).status == Executing
    ensures Settle(With(RunStatus.Failed, CommandExit, Queued)).status == FailedRun
    ensures Settle(With(Uncertain, OtherReason("TERMINATION_UNCONFIRMED"), Queued)).status == Blocked
    ensures Settle(With(Succeeded, NoReason, Queued)).status == Queued
  {
    hide Settle;
    ShownActive();
    ShownEnded();
  }

  lemma ShownActive()
    ensures Settle(With(Dispatching, NoReason, Queued)).status == Executing
    ensures Settle(With(Running, NoReason, Queued)).status == Executing
    ensures Settle(With(Uncertain, OtherReason("TERMINATION_UNCONFIRMED"), Queued)).status == Blocked
  {
    hide PhaseOf;
  }

  lemma ShownEnded()
    ensures Settle(With(RunStatus.Failed, CommandExit, Queued)).status == FailedRun
    ensures Settle(With(Succeeded, NoReason, Queued)).status == Queued
  {
  }

  // ---- The events, one by one ----

  lemma CommitsFollow(n: nat)
    requires n < 4
    ensures Legal(Stage(n), REWRITTEN[n]) && Step(Stage(n), REWRITTEN[n]) == Stage(n + 1)
  {
    hide Apply;
    Normalizes();
    Approves();
    Proposes();
    Reserves();
  }

  /** A record of the run changes its entry and what is shown of the task. */
  lemma RecordedAround(from: RunStatus, why: Reason, shown: Status, recorded: set<(string, RunStatus)>, lock: Lock,
                       drivers: set<string>, status: RunStatus, reason: Reason)
    ensures Recorded(Around(With(from, why, shown), recorded, lock, drivers), SEEN, "run", status, reason, false)
         == Around(With(status, reason, Settle(With(status, reason, Queued)).status), recorded + {("run", status)}, lock, drivers)
  {
    hide Apply, Settle;
    Records(from, why, shown, status, reason);
  }

  lemma DispatchFollows()
    ensures Legal(Stage(4), REWRITTEN[4]) && Step(Stage(4), REWRITTEN[4]) == Stage(5)
  {
    hide Apply, BasisLoss, Settle, Recorded;
    Shown();
    BasisKept(RunStatus.Reserved, NoReason, Queued);
    RecordedAround(RunStatus.Reserved, NoReason, Queued, R0, Free, {}, Dispatching, NoReason);
  }

  lemma CallFollows()
    ensures Legal(Stage(5), REWRITTEN[5]) && Step(Stage(5), REWRITTEN[5]) == Stage(6)
  {
  }

  lemma RunningFollows()
    ensures Legal(Stage(6), REWRITTEN[6]) && Step(Stage(6), REWRITTEN[6]) == Stage(7)
  {
    hide Apply, BasisLoss, Settle, Recorded;
    Shown();
    RecordedAround(Dispatching, NoReason, Executing, R1, Launched("run"), {}, Running, NoReason);
  }

  lemma FailureFollows()
    ensures Legal(Stage(7), REWRITTEN[7]) && Step(Stage(7), REWRITTEN[7]) == Stage(8)
  {
    hide Apply, BasisLoss, Settle, Recorded;
    Shown();
    RecordedAround(Running, NoReason, Executing, R2, Free, {"run"}, RunStatus.Failed, CommandExit);
  }

  lemma UncertaintyFollows()
    ensures Legal(Stage(8), REWRITTEN[8]) && Step(Stage(8), REWRITTEN[8]) == Stage(9)
  {
    hide Apply, BasisLoss, Settle, Recorded;
    Shown();
    RecordedAround(RunStatus.Failed, CommandExit, FailedRun, R3, Free, {"run"}, Uncertain,
                   OtherReason("TERMINATION_UNCONFIRMED"));
  }

  lemma SuccessFollows()
    ensures Legal(Stage(9), REWRITTEN[9]) && Step(Stage(9), REWRITTEN[9]) == Stage(10)
  {
    hide Apply, BasisLoss, Settle, Recorded;
    Shown();
    BasisKept(Uncertain, OtherReason("TERMINATION_UNCONFIRMED"), Blocked);
    RecordedAround(Uncertain, OtherReason("TERMINATION_UNCONFIRMED"), Blocked, R4, Free, {}, Succeeded, NoReason);
  }

  /** The gate is open again for another run. */
  lemma GateOpensAgain()
    ensures Legal(Stage(10), REWRITTEN[10])
  {
    hide BasisRefusal, Settle;
    BasisKept(Succeeded, NoReason, Queued);
  }

  lemma EachFollows(n: nat)
    requires n < 10
    ensures Legal(Stage(n), REWRITTEN[n]) && Step(Stage(n), REWRITTEN[n]) == Stage(n + 1)
  {
    hide Legal, Step, Stage;
    if n < 4 {
      CommitsFollow(n);
    } else if n == 4 {
      DispatchFollows();
    } else if n == 5 {
      CallFollows();
    } else if n == 6 {
      RunningFollows();
    } else if n == 7 {
      FailureFollows();
    } else if n == 8 {
      UncertaintyFollows();
    } else {
      SuccessFollows();
    }
  }

  lemma {:induction false} StagesReached(log: seq<Event>, n: nat)
    requires n <= 10 && n <= |log| && log[..n] == REWRITTEN[..n]
    ensures After(SEEN, log, n) == Stage(n)
    ensures forall k :: 0 <= k < n ==> LegalAt(SEEN, log, k)
  {
    hide Legal, Step, Fresh, Stage;
    if n == 0 {
      Captures();
      assert Stage(0) == Around(CAPTURED, {}, Free, {}) by { StartsCaptured(); }
    } else {
      assert log[..n - 1] == log[..n][..n - 1] == REWRITTEN[..n][..n - 1] == REWRITTEN[..n - 1];
      assert log[n - 1] == log[..n][n - 1] == REWRITTEN[n - 1];
      StagesReached(log, n - 1);
      EachFollows(n - 1);
    }
  }

  lemma StartsCaptured()
    ensures Stage(0) == Around(CAPTURED, {}, Free, {})
  {
  }

  lemma RewrittenLawful()
    ensures LegalLog(SEEN, REWRITTEN)
  {
    hide Legal, Step, Stage, After;
    assert REWRITTEN[..10] == REWRITTEN[..10];
    StagesReached(REWRITTEN, 10);
    GateOpensAgain();
  }

  /** A lawful history in which a run recorded as failed is recorded as succeeded
      two events later, under one epoch and with no release for repair, and the
      gate it held lets another run in. So without the condition on late outcomes
      a terminal status is not final and a failed run does not hold the gate. */
  lemma EndedRunRewritten()
    ensures LegalLog(SEEN, REWRITTEN) && |REWRITTEN| == 11
    ensures Final(After(SEEN, REWRITTEN, 8), "run") && After(SEEN, REWRITTEN, 8).runs["run"].status == RunStatus.Failed
    ensures Stuck(After(SEEN, REWRITTEN, 8), "run") && After(SEEN, REWRITTEN, 8).lock.Free?
    ensures LateGrace(After(SEEN, REWRITTEN, 8), REWRITTEN[8])
    ensures Final(After(SEEN, REWRITTEN, 10), "run") && After(SEEN, REWRITTEN, 10).runs["run"].status == Succeeded
    ensures After(SEEN, REWRITTEN, 10).task.epoch == After(SEEN, REWRITTEN, 8).task.epoch
    ensures REWRITTEN[10].Reserve? && forall k :: 8 <= k < 11 ==> !Repairs(REWRITTEN[k])
  {
    hide LegalLog, Legal, Step, After;
    RewrittenLawful();
    StagesReached(REWRITTEN, 8);
    StagesReached(REWRITTEN, 10);
    SeenStuck();
  }

  lemma SeenStuck()
    ensures Stuck(Stage(8), "run") && LateGrace(Stage(8), REWRITTEN[8])
  {
  }

  // ---- The same with a closed Issue ----

  const CLOSED := SEEN.(issue := Source("content", false, "2"))

  const CANCELLED := FAILED.(requirements := None, requirementApproval := None, started := false, design := None, epoch := 4,
                             sourceRevision := 2, source := CLOSED.issue, observed := CLOSED.issue, cancelled := true,
                             phase := InRequirements, status := Status.Cancelled)

  const REVIVED := REWRITTEN[..8] + [
    Other(CLOSED, Capturing),
    Report(CLOSED, "run", Uncertain, OtherReason("TERMINATION_UNCONFIRMED"), false, Grace)]

  lemma Cancels()
    ensures Legal(Stage(8), Other(CLOSED, Capturing))
    ensures Step(Stage(8), Other(CLOSED, Capturing)) == Around(CANCELLED, R3, Free, {"run"})
  {
  }

  lemma Revives()
    ensures var w := Around(CANCELLED, R3, Free, {"run"});
            Legal(w, REVIVED[9]) && A.CancelledRuns(Step(w, REVIVED[9]).task)
  {
  }

  /** A lawful history that ends with a cancelled task and an active command: the
      Issue is closed once recovery has settled the run, and then its driver's
      grace runs out. */
  lemma CancelledRunRevived()
    ensures LegalLog(SEEN, REVIVED) && |REVIVED| == 10
    ensures A.CancelledRuns(After(SEEN, REVIVED, 10).task)
  {
    hide Legal, Step, Stage, A.CancelledRuns;
    assert REVIVED[..8] == REWRITTEN[..8];
    StagesReached(REVIVED, 8);
    Cancels();
    Revives();
  }
}
