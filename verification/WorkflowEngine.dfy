/** The reducers of the workflow, changing a task's state step by step as a commit
    applies them, and the engine that commits them. */
module WorkflowEngine {
  import opened Results
  import opened Workflow
  import opened Approvals

  /** The reducer arrived at this outcome; a refusal discards the draft. */
  predicate Arrives(o: Outcome, refusal: Option<Code>, state: Task) {
    match o
    case Next(u) => refusal.None? && state == u
    case Refuse(code) => refusal == Some(code)
  }

  const GATES := [RequirementGate, StartGate, DesignGate]

  /** The copy of the state that one reducer works on. */
  class Draft {
    var state: Task

    constructor (t: Task)
      ensures state == t
    {
      state := t;
    }

    method Settle()
      modifies this
      ensures state == Workflow.Settle(old(state))
    {
      hide IdleStatus, PhaseOf, FailedHere;
      var t := state;
      var status := IdleStatus(t);
      state := state.(phase := PhaseOf(t));
      if Active(t) {
        var run := t.execution.value;
        status := if t.cancelRequested then CancelRequested
                  else if run.status.Uncertain? then Blocked
                  else if run.status.Reserved? then Queued else Executing;
      } else {
        if t.cancelRequested {
          state := state.(cancelled := true, cancelRequested := false);
        }
        if FailedHere(t) {
          status := FailedRun;
        }
        status := if state.cancelled then Cancelled else if state.paused then Paused else status;
      }
      state := state.(status := status);
    }

    method ResetScope()
      modifies this
      ensures state == Workflow.ResetScope(old(state))
    {
      state := state.(requirements := None, requirementApproval := None, started := false, startApproval := None);
      state := state.(design := None, designApproval := None, epoch := state.epoch + 1);
    }

    method CaptureSource(v: View) returns (refusal: Option<Code>)
      modifies this
      ensures Arrives(Capture(old(state), v), refusal, state)
    {
      hide StateRefusal, Workflow.ResetScope;
      refusal := StateRefusal(state, v, true);
      if refusal.Some? {
        return;
      }
      var changed := !SameSource(state.source, v.issue);
      if changed {
        SourceOfReset(state);
        ResetScope();
        state := state.(amendments := []);
      }
      Observe(v, changed);
    }

    lemma SourceOfReset(t: Task)
      ensures Workflow.ResetScope(t).source == t.source && Workflow.ResetScope(t).execution == t.execution
    {
    }

    /** The observation is recorded, and a closed Issue cancels. */
    method Observe(v: View, changed: bool)
      modifies this
      ensures state == Captured(old(state), v, changed)
    {
      if changed {
        state := state.(sourceRevision := state.sourceRevision + 1);
        state := state.(source := v.issue);
      }
      state := state.(observed := v.issue);
      if !v.issue.open {
        state := state.(cancelRequested := Active(state));
        state := state.(cancelled := !Active(state));
      }
    }

    method Normalize(v: View, digest: Digest, questions: bool) returns (refusal: Option<Code>)
      modifies this
      ensures Arrives(Workflow.Normalize(old(state), v, digest, questions), refusal, state)
    {
      hide StateRefusal, SourceRefusal;
      refusal := StateRefusal(state, v, true);
      if refusal.Some? {
        return;
      }
      refusal := SourceRefusal(state, v);
      if refusal.Some? {
        return;
      }
      ResetScope();
      state := state.(requirementsCount := state.requirementsCount + 1);
      state := state.(requirements := Some(Requirements(state.requirementsCount, digest, state.source, state.amendments, questions)));
    }

    method ProposeDesign(v: View, digest: Digest, requirements: nat, questions: bool) returns (refusal: Option<Code>)
      modifies this
      ensures Arrives(Propose(old(state), v, digest, requirements, questions), refusal, state)
    {
      hide StateRefusal, BasisRefusal;
      refusal := StateRefusal(state, v, true);
      if refusal.Some? {
        return;
      }
      refusal := BasisRefusal(state, v, false);
      if refusal.Some? {
        return;
      }
      if state.requirements.None? || state.requirements.value.number != requirements {
        return Some(RevisionStale);
      }
      state := state.(designCount := state.designCount + 1);
      state := state.(design := Some(Design(state.designCount, digest, requirements, questions)), designApproval := None);
      state := state.(epoch := state.epoch + 1);
    }

    method HandleComment(v: View, comment: nat, c: Command) returns (refusal: Option<Code>)
      modifies this
      ensures Arrives(Handle(old(state), v, comment, c), refusal, state)
    {
      hide CommentRefusal, StateRefusal, SourceRefusal, Approve, Begin, AcceptDesign, Revise, Operate;
      refusal := CommentRefusal(v, comment);
      if refusal.Some? {
        return;
      }
      CommentPosted(v, comment);
      var posted := v.comments[comment];
      var halting := c.Stop? || c.Cancel?;
      refusal := StateRefusal(state, v, !halting);
      if refusal.Some? {
        return;
      }
      if !halting {
        refusal := SourceRefusal(state, v);
        if refusal.Some? {
          return;
        }
      }
      match c {
        case ApproveRequirements(_, _, _) => refusal := ApproveRequirements(v, comment, posted, c);
        case Start(_, _) => refusal := Start(v, comment, posted, c);
        case ApproveDesign(_) => refusal := ApproveDesign(v, comment, posted, c);
        case Amend(_) => refusal := Amend(v, posted, c);
        case _ => refusal := StopCancelResume(v, posted, c);
      }
    }

    lemma CommentPosted(v: View, comment: nat)
      requires CommentRefusal(v, comment).None?
      ensures comment in v.comments && v.comments[comment].Posted?
    {
    }

    method ApproveRequirements(v: View, comment: nat, posted: Evidence, c: Command) returns (refusal: Option<Code>)
      requires posted.Posted? && c.ApproveRequirements?
      modifies this
      ensures Arrives(Approve(old(state), v, comment, posted, c), refusal, state)
    {
      hide HoldsRoles, ApprovalRoles, StartAllowed;
      if state.requirements.None? || c.requirements != state.requirements.value.number {
        return Some(RevisionStale);
      }
      if state.requirements.value.questions {
        return Some(QuestionsOpen);
      }
      if state.requirementApproval.Some? {
        return Some(AlreadyApproved);
      }
      var roles := RolesNeeded(v, c.start);
      if !HoldsRoles(v, posted.actor, roles) {
        return Some(CommandForbidden);
      }
      var allowed := OverrideStart(v, c.start);
      if !allowed {
        return Some(OverrideForbidden);
      }
      allowed := OverrideMode(v, c.mode);
      if !allowed {
        return Some(OverrideForbidden);
      }
      state := state.(requirementApproval := Some(ProofOf(comment, posted, roles)));
      state := state.(started := state.startPolicy.OnApproval?);
      refusal := None;
    }

    method RolesNeeded(v: View, start: Option<StartPolicy>) returns (roles: seq<Role>)
      ensures roles == ApprovalRoles(state, v, start)
    {
      roles := [RequirementApprover];
      if Or(start, state.startPolicy).OnApproval? && !v.startPolicy.OnApproval? {
        roles := roles + [Starter];
      }
    }

    method OverrideStart(v: View, start: Option<StartPolicy>) returns (allowed: bool)
      modifies this
      ensures allowed <==> StartAllowed(old(state), v, start)
      ensures allowed ==> state == old(state).(startPolicy := Or(start, old(state).startPolicy))
    {
      if start.Some? {
        if start.value != state.startPolicy && start.value !in v.startOverrides {
          return false;
        }
        state := state.(startPolicy := start.value);
      }
      allowed := true;
    }

    method OverrideMode(v: View, mode: Option<DesignMode>) returns (allowed: bool)
      modifies this
      ensures allowed <==> ModeAllowed(old(state), v, mode)
      ensures allowed ==> state == old(state).(designMode := Or(mode, old(state).designMode))
    {
      if mode.Some? {
        if mode.value != state.designMode && mode.value !in v.designOverrides {
          return false;
        }
        state := state.(designMode := mode.value);
      }
      allowed := true;
    }

    method Start(v: View, comment: nat, posted: Evidence, c: Command) returns (refusal: Option<Code>)
      requires posted.Posted? && c.Start?
      modifies this
      ensures Arrives(Begin(old(state), v, comment, posted, c), refusal, state)
    {
      hide HoldsRoles, ProofRefusal;
      refusal := ProofRefusal(v, state.requirementApproval);
      if refusal.Some? {
        return;
      }
      if state.requirements.None? || c.requirements != state.requirements.value.number {
        return Some(RevisionStale);
      }
      if state.started {
        return Some(AlreadyStarted);
      }
      if !HoldsRoles(v, posted.actor, [Starter]) {
        return Some(CommandForbidden);
      }
      state := state.(startApproval := Some(ProofOf(comment, posted, [Starter])));
      var allowed := OverrideMode(v, c.mode);
      if !allowed {
        return Some(OverrideForbidden);
      }
      state := state.(started := true);
      refusal := None;
    }

    method ApproveDesign(v: View, comment: nat, posted: Evidence, c: Command) returns (refusal: Option<Code>)
      requires posted.Posted? && c.ApproveDesign?
      modifies this
      ensures Arrives(AcceptDesign(old(state), v, comment, posted, c), refusal, state)
    {
      hide HoldsRoles, BasisRefusal;
      refusal := BasisRefusal(state, v, false);
      if refusal.Some? {
        return;
      }
      if state.design.None? || c.design != state.design.value.number {
        return Some(RevisionStale);
      }
      if state.design.value.questions {
        return Some(QuestionsOpen);
      }
      if !state.designMode.Collaborative? {
        return Some(DesignAutomatic);
      }
      if !HoldsRoles(v, posted.actor, [DesignApprover]) {
        return Some(CommandForbidden);
      }
      state := state.(designApproval := Some(ProofOf(comment, posted, [DesignApprover])));
      refusal := None;
    }

    method Amend(v: View, posted: Evidence, c: Command) returns (refusal: Option<Code>)
      requires posted.Posted? && c.Amend?
      modifies this
      ensures Arrives(Revise(old(state), v, posted, c), refusal, state)
    {
      hide HoldsRoles;
      if !HoldsRoles(v, posted.actor, [Contributor]) {
        return Some(CommandForbidden);
      }
      if state.requirements.None? || c.requirements != state.requirements.value.number {
        return Some(RevisionStale);
      }
      state := state.(amendments := state.amendments + [posted.document]);
      ResetScope();
      refusal := None;
    }

    method StopCancelResume(v: View, posted: Evidence, c: Command) returns (refusal: Option<Code>)
      requires posted.Posted? && (c.Stop? || c.Cancel? || c.Resume?)
      modifies this
      ensures Arrives(Operate(old(state), v, posted, c), refusal, state)
    {
      hide HoldsRoles, ProofRefusal;
      if !HoldsRoles(v, posted.actor, [Operator]) {
        return Some(CommandForbidden);
      }
      if c.Resume? {
        if !state.paused {
          return Some(TaskNotPaused);
        }
        var proofs := [state.requirementApproval, state.startApproval, state.designApproval];
        var i := 0;
        while i < |proofs|
          invariant i <= |proofs| && state == old(state)
          invariant FirstRefusal(v, proofs[i..]) == FirstRefusal(v, proofs)
        {
          if proofs[i].Some? && ProofRefusal(v, proofs[i]).Some? {
            return ProofRefusal(v, proofs[i]);
          }
          assert proofs[i..][1..] == proofs[i + 1..];
          i := i + 1;
        }
        state := state.(paused := false);
      } else {
        state := state.(paused := c.Stop?);
        state := state.(cancelRequested := c.Cancel? && Active(state));
        state := state.(cancelled := c.Cancel? && !Active(state));
      }
      state := state.(epoch := state.epoch + 1);
      refusal := None;
    }

    lemma UndecidedHere(v: View, proof: Option<Proof>)
      ensures proof.Some? && ProofRefusal(v, proof).Some? && !Revokes(ProofRefusal(v, proof).value) ==>
                Undecided(v, proof) == ProofRefusal(v, proof)
    {
      hide ProofRefusal;
    }

    lemma DecidedHere(v: View, proof: Option<Proof>)
      ensures proof.None? || ProofRefusal(v, proof).None? || Revokes(ProofRefusal(v, proof).value) ==> Undecided(v, proof).None?
      ensures Revoked(v, proof) <==> proof.Some? && ProofRefusal(v, proof).Some? && Revokes(ProofRefusal(v, proof).value)
    {
      hide ProofRefusal;
    }

    lemma FirstAt(v: View, t: Task, i: nat)
      requires i < 3 && Undecided(v, Held(t, GATES[i])).Some?
      requires forall k :: 0 <= k < i ==> Undecided(v, Held(t, GATES[k])).None?
      ensures FirstUndecided(v, t) == Undecided(v, Held(t, GATES[i]))
    {
      hide Undecided;
      assert i > 0 ==> Undecided(v, Held(t, GATES[0])).None?;
      assert i > 1 ==> Undecided(v, Held(t, GATES[1])).None?;
    }

    lemma NothingUndecided(v: View, t: Task)
      requires forall k :: 0 <= k < 3 ==> Undecided(v, Held(t, GATES[k])).None?
      ensures FirstUndecided(v, t).None?
    {
      hide Undecided;
      assert Undecided(v, Held(t, GATES[0])).None? && Undecided(v, Held(t, GATES[1])).None? && Undecided(v, Held(t, GATES[2])).None?;
    }

    lemma AllGates()
      ensures forall g: Gate :: g in GATES
    {
      forall g: Gate
        ensures g in GATES
      {
        match g {
          case RequirementGate => assert GATES[0] == g;
          case StartGate => assert GATES[1] == g;
          case DesignGate => assert GATES[2] == g;
        }
      }
    }

    /** The gates whose approval is found revoked, or the first finding, in the order
        of the gates, that decides nothing about an approval in force. */
    method FindRevoked(v: View) returns (failure: Option<Code>, revoked: set<Gate>)
      ensures failure == FirstUndecided(v, state)
      ensures failure.Some? ==> !Revokes(failure.value)
      ensures failure.None? ==> forall g :: g in revoked <==> Revoked(v, Held(state, g))
    {
      hide ProofRefusal, FirstUndecided, Undecided, Held, Revokes;
      var gates := GATES;
      revoked := {};
      var i := 0;
      while i < |gates|
        invariant i <= |gates|
        invariant forall k :: 0 <= k < i ==> Undecided(v, Held(state, gates[k])).None?
        invariant forall g :: g in revoked <==> g in gates[..i] && Revoked(v, Held(state, g))
      {
        var proof := Held(state, gates[i]);
        if proof.Some? {
          var finding := ProofRefusal(v, proof);
          if finding.Some? {
            if !Revokes(finding.value) {
              UndecidedHere(v, proof);
              FirstAt(v, state, i);
              return finding, {};
            }
            revoked := revoked + {gates[i]};
          }
        }
        DecidedHere(v, proof);
        assert gates[..i + 1] == gates[..i] + [gates[i]];
        i := i + 1;
      }
      assert gates[..i] == gates;
      AllGates();
      NothingUndecided(v, state);
      failure := None;
    }

    method Reconcile(v: View) returns (refusal: Option<Code>)
      modifies this
      ensures Arrives(Workflow.Reconcile(old(state), v), refusal, state)
    {
      hide StateRefusal, SourceRefusal, ProofRefusal, Revoked, Undecided;
      refusal := StateRefusal(state, v, true);
      if refusal.Some? {
        return;
      }
      refusal := SourceRefusal(state, v);
      if refusal.Some? {
        return;
      }
      var revoked: set<Gate>;
      refusal, revoked := FindRevoked(v);
      if refusal.Some? {
        return;
      }
      if RequirementGate in revoked {
        state := state.(requirementApproval := None, started := false, startApproval := None, designApproval := None);
      } else if StartGate in revoked {
        state := state.(startApproval := None, started := false, designApproval := None);
      }
      if DesignGate in revoked {
        state := state.(designApproval := None);
      }
      NoneRevoked(revoked);
      if revoked != {} {
        state := state.(epoch := state.epoch + 1);
      }
    }

    lemma NoneRevoked(revoked: set<Gate>)
      ensures revoked != {} <==> RequirementGate in revoked || StartGate in revoked || DesignGate in revoked
    {
      if g :| g in revoked {
        assert g == RequirementGate || g == StartGate || g == DesignGate;
      }
    }

    method RefreshPolicy(v: View) returns (refusal: Option<Code>)
      modifies this
      ensures Arrives(Refresh(old(state), v), refusal, state)
    {
      hide StateRefusal;
      refusal := StateRefusal(state, v, false);
      if refusal.Some? {
        return;
      }
      if state.config != v.config {
        ResetScope();
        state := state.(config := v.config);
        state := state.(startPolicy := v.startPolicy);
        state := state.(designMode := v.designMode);
      }
    }

    method ReserveRun(v: View, run: string, plan: Digest) returns (refusal: Option<Code>)
      modifies this
      ensures Arrives(Reserve(old(state), v, run, plan), refusal, state)
    {
      hide GateRefusal;
      refusal := GateRefusal(state, v);
      if refusal.Some? {
        return;
      }
      if state.requirements.None? || state.design.None? {
        return Some(GateClosed);
      }
      state := state.(execution := Some(Execution(run, Reserved, plan, state.epoch, state.requirements.value.number,
                                                  state.design.value.number, state.config, NoReason, false)));
    }

    method RecordRun(run: string, status: RunStatus, reason: Reason, stopped: bool) returns (refusal: Option<Code>)
      modifies this
      ensures Arrives(Workflow.RecordRun(old(state), run, status, reason, stopped), refusal, state)
    {
      if state.execution.None? || state.execution.value.run != run {
        return Some(RunConflict);
      }
      state := state.(execution := Some(state.execution.value.(status := status, reason := reason, stopped := stopped)));
      refusal := None;
    }

    method PrepareRepair(v: View, run: string) returns (refusal: Option<Code>)
      modifies this
      ensures Arrives(Workflow.PrepareRepair(old(state), v, run), refusal, state)
    {
      hide StateRefusal, BasisRefusal;
      refusal := StateRefusal(state, v, true);
      if refusal.Some? {
        return;
      }
      refusal := BasisRefusal(state, v, true);
      if refusal.Some? {
        return;
      }
      if state.paused || state.execution.None? {
        return Some(RepairDenied);
      }
      var e := state.execution.value;
      if e.run != run || !e.status.Failed? || e.epoch != state.epoch
         || !(e.reason.CommandExit? || e.reason.ReportsFailedOrEmpty?) || !e.stopped
      {
        return Some(RepairDenied);
      }
      state := state.(execution := None);
      refusal := None;
    }

    method WithdrawApprovals()
      modifies this
      ensures Next(state) == Withdraw(old(state))
    {
      state := state.(requirementApproval := None, startApproval := None, designApproval := None, started := false);
      state := state.(epoch := state.epoch + 1);
    }

    method Reduce(v: View, a: Action) returns (refusal: Option<Code>)
      modifies this
      ensures Arrives(Reduced(old(state), v, a), refusal, state)
    {
      hide Capture, Workflow.Normalize, Propose, Handle, Workflow.Reconcile, Refresh, Reserve, Workflow.RecordRun,
           Workflow.PrepareRepair;
      match a {
        case Capturing => refusal := CaptureSource(v);
        case Normalizing(digest, questions) => refusal := Normalize(v, digest, questions);
        case Proposing(digest, requirements, questions) => refusal := ProposeDesign(v, digest, requirements, questions);
        case Commanding(comment, command) => refusal := HandleComment(v, comment, command);
        case Reconciling => refusal := Reconcile(v);
        case Refreshing => refusal := RefreshPolicy(v);
        case Reserving(run, plan) => refusal := ReserveRun(v, run, plan);
        case Recording(run, status, reason, stopped) => refusal := RecordRun(run, status, reason, stopped);
        case Repairing(run) => refusal := PrepareRepair(v, run);
        case Withdrawing => WithdrawApprovals(); refusal := None;
        case Noting => refusal := None;
      }
    }
  }

  ghost predicate Follows(log: seq<Event>, task: Option<Task>, comments: set<nat>) {
    LegalLog(log) && After(log, |log|) == World(task, comments)
  }

  lemma FollowsNext(log: seq<Event>, task: Option<Task>, comments: set<nat>, e: Event)
    requires Follows(log, task, comments) && Legal(World(task, comments), e)
    ensures Follows(log + [e], Step(World(task, comments), e).task, Step(World(task, comments), e).comments)
  {
    hide Step, Legal, After, LegalLog;
    LawfulNext(log, e);
  }

  datatype Committed = Accepted | Redelivered | Declined(code: Code)

  /** The engine over one task's journal. */
  class Engine {
    var task: Option<Task>
    var comments: set<nat>
    ghost var log: seq<Event>

    ghost predicate Valid()
      reads this
    {
      Follows(log, task, comments)
    }

    constructor ()
      ensures Valid() && task.None? && log == [] && comments == {}
    {
      task, comments, log := None, {}, [];
      new;
      Nothing();
    }

    lemma Nothing()
      ensures Follows([], None, {})
    {
    }

    /** One commit. A comment that was handled is acknowledged and changes nothing;
        any other event is applied to the current state or refused. */
    method Commit(v: View, a: Action) returns (r: Committed)
      requires Valid()
      modifies this
      ensures Valid()
      ensures a.Commanding? && a.comment in old(comments) ==> r == Redelivered
      ensures r.Accepted? ==>
                && log == old(log) + [Event(v, a)]
                && Legal(World(old(task), old(comments)), Event(v, a))
                && World(task, comments) == Step(World(old(task), old(comments)), Event(v, a))
      ensures !r.Accepted? ==> task == old(task) && comments == old(comments) && log == old(log)
      ensures r.Declined? ==> old(task).None? || Apply(old(task).value, v, a) == Refuse(r.code)
    {
      hide Follows, Reduced, Workflow.Settle, Fresh;
      if a.Commanding? && a.comment in comments {
        return Redelivered;
      }
      var next: Task;
      if task.None? {
        if !a.Capturing? {
          return Declined(TaskMissing);
        }
        next := CaptureFirst(v);
      } else {
        var draft := new Draft(task.value);
        var refusal := draft.Reduce(v, a);
        if refusal.Some? {
          return Declined(refusal.value);
        }
        draft.Settle();
        next := draft.state;
      }
      FollowsNext(log, task, comments, Event(v, a));
      task := Some(next);
      if a.Commanding? {
        comments := comments + {a.comment};
      }
      log := log + [Event(v, a)];
      r := Accepted;
    }

    method CaptureFirst(v: View) returns (t: Task)
      ensures t == Fresh(v)
    {
      hide Workflow.Settle, Captured;
      var draft := new Draft(Task(v.config, v.issue, 0, v.issue, 0, 0, [], None, None, false, None, None, None, false, false,
                                  false, 0, v.startPolicy, v.designMode, None, InRequirements, Queued));
      draft.ResetScope();
      draft.Observe(v, true);
      draft.Settle();
      t := draft.state;
    }
  }
}
