/** What each change of a task means to those who ask for it: when it is accepted,
    what it leaves alone, what it takes away, and what can or cannot follow it. */
module WorkflowLaws {
  import opened Results
  import opened Workflow
  import A = Approvals
  import X = Execution

  // ---- What it means to hold ----

  /** The person may write to the repository and is in the operator's list of the role;
      contributing needs no list. */
  predicate Entitled(v: View, actor: nat, role: Role) {
    actor in v.writers && (role == Contributor || (role in v.allowed && actor in v.allowed[role]))
  }

  lemma RoleMeans(v: View, actor: nat, role: Role)
    ensures RoleRefusal(v, actor, role).None? <==> Entitled(v, actor, role)
    ensures RoleRefusal(v, actor, role).Some? ==> RoleRefusal(v, actor, role).value == CommandForbidden
  {
  }

  lemma RolesMean(v: View, actor: nat, roles: seq<Role>)
    ensures HoldsRoles(v, actor, roles) <==> forall role <- roles :: Entitled(v, actor, role)
  {
    hide RoleRefusal, Entitled;
    forall role <- roles
      ensures RoleRefusal(v, actor, role).None? <==> Entitled(v, actor, role)
    {
      RoleMeans(v, actor, role);
    }
  }

  /** A comment that can carry a command or evidence: there, by a human, never edited. */
  predicate Speaks(v: View, comment: nat) {
    && comment in v.comments && v.comments[comment].Posted?
    && v.comments[comment].human && !v.comments[comment].edited
  }

  /** What is wrong with a comment, in the order in which it is found. */
  lemma CommentMeans(v: View, comment: nat)
    ensures CommentRefusal(v, comment).None? <==> Speaks(v, comment)
    ensures CommentRefusal(v, comment) == Some(ApprovalRevoked) <==> comment !in v.comments || v.comments[comment] == Missing
    ensures CommentRefusal(v, comment) == Some(ObservationFailed) <==> comment in v.comments && v.comments[comment] == Unobservable
    ensures CommentRefusal(v, comment) == Some(CommandActor) <==>
              comment in v.comments && v.comments[comment].Posted? && !v.comments[comment].human
    ensures CommentRefusal(v, comment) == Some(CommandEdited) <==>
              comment in v.comments && v.comments[comment].Posted? && v.comments[comment].human && v.comments[comment].edited
  {
  }

  /** An approval is good as things are: its comment still reads as it did, and its
      author still may do all it was given for. */
  predicate Standing(v: View, p: Proof) {
    && Speaks(v, p.comment) && v.comments[p.comment].document == p.document
    && forall role <- p.roles :: Entitled(v, v.comments[p.comment].actor, role)
  }

  predicate Stands(v: View, proof: Option<Proof>) {
    proof.Some? && Standing(v, proof.value)
  }

  /** The comment cannot be looked at, so nothing is known of the approval. */
  predicate Unseen(v: View, p: Proof) {
    p.comment in v.comments && v.comments[p.comment] == Unobservable
  }

  /** The approval is seen not to be good any more. */
  predicate Lapsed(v: View, proof: Option<Proof>) {
    proof.Some? && !Standing(v, proof.value) && !Unseen(v, proof.value)
  }

  lemma ProofMeans(v: View, proof: Option<Proof>)
    ensures ProofRefusal(v, proof).None? <==> Stands(v, proof)
    ensures Revoked(v, proof) <==> Lapsed(v, proof)
    ensures Undecided(v, proof).Some? <==> proof.Some? && Unseen(v, proof.value)
    ensures Undecided(v, proof).Some? ==> Undecided(v, proof).value == ObservationFailed
  {
    hide HoldsRoles, Entitled;
    if proof.Some? {
      CommentMeans(v, proof.value.comment);
      if Speaks(v, proof.value.comment) {
        RolesMean(v, v.comments[proof.value.comment].actor, proof.value.roles);
      }
    }
  }

  /** What is found of an approval that does not stand: it was never given, its comment
      is gone or reads otherwise, cannot be looked at, is not a person's or was edited,
      or its author has lost a role. */
  lemma ProofCodes(v: View, proof: Option<Proof>)
    requires !Stands(v, proof)
    ensures var code := ProofRefusal(v, proof);
            && (code == Some(ApprovalRequired) <==> proof == None)
            && (proof.Some? ==>
                  var p := proof.value;
                  && (p.comment !in v.comments || v.comments[p.comment] == Missing ==> code == Some(ApprovalRevoked))
                  && (Unseen(v, p) ==> code == Some(ObservationFailed))
                  && (p.comment in v.comments && v.comments[p.comment].Posted? ==>
                        var posted := v.comments[p.comment];
                        code == Some(if !posted.human then CommandActor else if posted.edited then CommandEdited
                                     else if posted.document != p.document then ApprovalRevoked else CommandForbidden)))
  {
    hide HoldsRoles;
    if proof.Some? && Speaks(v, proof.value.comment) {
      RolesMean(v, v.comments[proof.value.comment].actor, proof.value.roles);
    }
  }

  /** The task follows the present policy and is neither cancelled nor about to be. */
  predicate Open(t: Task, v: View) {
    t.config == v.config && !t.cancelled && !t.cancelRequested
  }

  predicate Sourced(t: Task, v: View) {
    v.issue.open && v.issue.content == t.source.content && t.source.open
  }

  /** The Issue reads as captured, and the start and every approval asked for stand. */
  predicate BasisStands(t: Task, v: View, design: bool) {
    && Sourced(t, v) && t.started && Stands(v, t.requirementApproval)
    && (t.startApproval.Some? ==> Stands(v, t.startApproval))
    && (design && t.designMode.Collaborative? ==> Stands(v, t.designApproval))
  }

  lemma BasisMeans(t: Task, v: View, design: bool)
    ensures BasisRefusal(t, v, design).None? <==> BasisStands(t, v, design)
  {
    hide ProofRefusal, Standing;
    ProofMeans(v, t.requirementApproval);
    ProofMeans(v, t.startApproval);
    ProofMeans(v, t.designApproval);
  }

  /** Why a closed task, a changed source or a lost approval refuses work. */
  lemma RefusalMeans(t: Task, v: View)
    ensures StateRefusal(t, v, true).None? <==> Open(t, v)
    ensures StateRefusal(t, v, false).None? <==> !t.cancelled && !t.cancelRequested
    ensures StateRefusal(t, v, true) == Some(PolicyChanged) <==> t.config != v.config
    ensures StateRefusal(t, v, false) == Some(TaskTerminal) <==> t.cancelled
    ensures StateRefusal(t, v, false) == Some(TaskCancelling) <==> !t.cancelled && t.cancelRequested
    ensures SourceRefusal(t, v).None? <==> Sourced(t, v)
    ensures SourceRefusal(t, v) == Some(IssueClosed) <==> !v.issue.open
    ensures SourceRefusal(t, v) == Some(SourceChanged) <==> v.issue.open && !Sourced(t, v)
  {
  }

  // ---- Settling and resetting ----

  /** The run in the slot failed or went stale in the present epoch. */
  predicate FailedNow(t: Task) {
    && t.execution.Some? && (t.execution.value.status.Failed? || t.execution.value.status.Stale?)
    && t.execution.value.epoch == t.epoch
  }

  /** Requirements and design are approved as far as the task asks for it. */
  predicate Designed(t: Task) {
    && t.requirements.Some? && t.requirementApproval.Some? && t.started
    && t.design.Some? && !t.design.value.questions && (t.designMode.Collaborative? ==> t.designApproval.Some?)
  }

  /** Everything a new command waits for, said of the task alone. */
  predicate Ready(t: Task) {
    !Active(t) && !t.cancelled && !t.cancelRequested && !t.paused && !FailedNow(t) && Designed(t)
  }

  /** What is shown of a task tells exactly how far it is, whether a command may be
      asked for, and what it waits for; a cancellation asked for stays open exactly
      while a command is active. */
  lemma SettleShows(t: Task)
    ensures var u := Settle(t);
            && u == t.(phase := u.phase, status := u.status, cancelled := u.cancelled, cancelRequested := u.cancelRequested)
            && (!Active(u) && u.status.Queued? && u.phase.InImplementation? <==> Ready(t))
            && (u.phase.InRequirements? <==> t.requirements.None?)
            && (u.phase.AtRequirementGate? <==> t.requirements.Some? && (t.requirementApproval.None? || !t.started))
            && (u.phase.InImplementation? <==> Designed(t))
            && (u.status.Cancelled? <==> !Active(t) && (t.cancelled || t.cancelRequested))
            && (u.status.CancelRequested? <==> Active(t) && t.cancelRequested)
            && (u.cancelRequested <==> t.cancelRequested && Active(t))
            && (u.cancelled <==> t.cancelled || (t.cancelRequested && !Active(t)))
  {
    A.SettleKeeps(t);
  }

  /** What a task without an active command and without a cancellation is shown as. */
  lemma IdleShows(t: Task)
    requires !Active(t) && !t.cancelled && !t.cancelRequested
    ensures var u := Settle(t);
            && (u.status.Paused? <==> t.paused)
            && (u.status.FailedRun? <==> !t.paused && FailedNow(t) && Designed(t))
            && (u.status.WaitingHuman? <==>
                  && !t.paused && t.requirements.Some? && !Designed(t)
                  && (t.requirementApproval.Some? && t.started ==> t.design.Some?))
            && (u.status.Paused? || u.status.FailedRun? || u.status.WaitingHuman? || u.status.Queued?)
  {
  }

  /** What a task with an active command is shown as. */
  lemma ActiveShows(t: Task)
    requires Active(t) && !t.cancelRequested
    ensures var u := Settle(t);
            && (u.status.Blocked? <==> t.execution.value.status.Uncertain?)
            && (u.status.Queued? <==> t.execution.value.status.Reserved?)
            && (u.status.Executing? <==> t.execution.value.status.Dispatching? || t.execution.value.status.Running?)
  {
  }

  /** The gate to a command, once a change is settled: the task is ready, the policy
      is the present one, and source and approvals still stand. */
  lemma GateExactly(t: Task, v: View)
    ensures GateRefusal(Settle(t), v).None? <==> Ready(t) && t.config == v.config && BasisStands(t, v, true)
  {
    hide ProofRefusal, SourceRefusal, Settle, Standing;
    SettleShows(t);
    SettleKeepsBasis(t, v);
    BasisMeans(t, v, true);
  }

  lemma SettleKeepsBasis(t: Task, v: View)
    ensures BasisRefusal(Settle(t), v, true) == BasisRefusal(t, v, true)
  {
    hide ProofRefusal, Settle;
    A.SettleKeeps(t);
  }

  /** No approval is in force and nothing is started. */
  predicate Unapproved(t: Task) {
    t.requirementApproval.None? && t.startApproval.None? && t.designApproval.None? && !t.started
  }

  /** Whatever is observed, an unapproved task reserves no command. */
  lemma UnapprovedIsShut(t: Task, v: View)
    requires Unapproved(t)
    ensures GateRefusal(t, v).Some?
  {
    hide StateRefusal, SourceRefusal;
  }

  /** A reset takes back every approval with the documents they were given for, and
      keeps source, amendments, command and flags; it is told from every earlier
      state by its epoch, and resetting again moves nothing but that. */
  lemma ResetTakesBack(t: Task, v: View)
    ensures var u := ResetScope(t);
            && Unapproved(u) && u.requirements.None? && u.design.None? && GateRefusal(Settle(u), v).Some?
            && u.source == t.source && u.amendments == t.amendments && u.execution == t.execution && u.config == t.config
            && (u.paused, u.cancelled, u.cancelRequested) == (t.paused, t.cancelled, t.cancelRequested)
            && u.epoch > t.epoch && ResetScope(u) == u.(epoch := t.epoch + 2)
  {
    var u := ResetScope(t);
    A.SettleKeeps(u);
    UnapprovedIsShut(Settle(u), v);
  }

  // ---- The source ----

  /** Looking at the Issue is refused exactly on a closed task or under another policy. */
  lemma CaptureRefused(t: Task, v: View)
    ensures Apply(t, v, Capturing).Next? <==> Open(t, v)
  {
    hide Captured, ResetScope, Settle;
  }

  /** The same content under a new version changes nothing but the observation. */
  lemma SameContentKeeps(t: Task, v: View)
    requires A.Inv(t) && Open(t, v) && Sourced(t, v)
    ensures Apply(t, v, Capturing) == Next(t.(observed := v.issue))
  {
    hide PhaseOf, IdleStatus, FailedHere;
    ObservedSettled(t, v.issue);
  }

  lemma ObservedSettled(t: Task, issue: Source)
    ensures Settle(t.(observed := issue)) == Settle(t).(observed := issue)
  {
    hide PhaseOf, IdleStatus;
    ObservedShown(t, issue);
  }

  lemma ObservedShown(t: Task, issue: Source)
    ensures PhaseOf(t.(observed := issue)) == PhaseOf(t) && IdleStatus(t.(observed := issue)) == IdleStatus(t)
  {
  }

  /** Changed content is the new source; no approval survives it, nor any amendment
      or document, and nothing is reserved until they are given again. */
  lemma ChangedContentResets(t: Task, v: View, later: View)
    requires Open(t, v) && !SameSource(t.source, v.issue)
    ensures Apply(t, v, Capturing).Next?
    ensures var u := Apply(t, v, Capturing).task;
            && u.source == v.issue && u.sourceRevision == t.sourceRevision + 1 && u.epoch == t.epoch + 1
            && Unapproved(u) && u.requirements.None? && u.design.None? && u.amendments == []
            && u.execution == t.execution && GateRefusal(u, later).Some?
  {
    hide GateRefusal;
    var u := Captured(ResetScope(t).(amendments := []), v, true);
    A.SettleKeeps(u);
    UnapprovedIsShut(Settle(u), later);
  }

  /** A closed Issue cancels an idle task at once, and an active one as soon as its
      command has stopped. */
  lemma ClosedIssueCancels(t: Task, v: View)
    requires Open(t, v) && !v.issue.open
    ensures var u := Apply(t, v, Capturing);
            && u.Next? && u.task.execution == t.execution
            && (u.task.cancelled <==> !Active(t)) && (u.task.cancelRequested <==> Active(t))
  {
    hide PhaseOf, IdleStatus, FailedHere;
  }

  /** Looking twice is looking once, or the second look finds the task closed. */
  lemma CaptureTwice(t: Task, v: View)
    requires A.Inv(t) && Apply(t, v, Capturing).Next?
    ensures var u := Apply(t, v, Capturing).task;
            if v.issue.open then Apply(u, v, Capturing) == Next(u) else Apply(u, v, Capturing).Refuse?
  {
    hide Capture, Settle, A.Ordered;
    CaptureRefused(t, v);
    CapturedOnce(t, v);
    var u := Apply(t, v, Capturing).task;
    A.InvStep(t, v, Capturing);
    if v.issue.open {
      SameContentKeeps(u, v);
    } else {
      ClosedIssueCancels(t, v);
      CaptureRefused(u, v);
    }
  }

  lemma CapturedOnce(t: Task, v: View)
    requires Open(t, v)
    ensures var u := Apply(t, v, Capturing).task;
            SameSource(u.source, v.issue) && u.observed == v.issue && u.config == t.config
    ensures v.issue.open ==> var u := Apply(t, v, Capturing).task; !u.cancelled && !u.cancelRequested
  {
    hide PhaseOf, IdleStatus, FailedHere;
  }

  // ---- Documents ----

  /** New requirements are accepted exactly on the present policy and source. They
      carry that source and the amendments, have a number of their own, and every
      approval, start and design given for earlier ones is gone; nothing else moves. */
  lemma NormalizeRenews(t: Task, v: View, digest: Digest, questions: bool, later: View)
    ensures Apply(t, v, Normalizing(digest, questions)).Next? <==> Open(t, v) && Sourced(t, v)
    ensures Apply(t, v, Normalizing(digest, questions)).Next? ==>
              var u := Apply(t, v, Normalizing(digest, questions)).task;
              && u.requirements == Some(Requirements(t.requirementsCount + 1, digest, t.source, t.amendments, questions))
              && u.requirementsCount == t.requirementsCount + 1 && u.epoch == t.epoch + 1
              && Unapproved(u) && u.design.None? && GateRefusal(u, later).Some?
              && (u.source, u.amendments, u.execution, u.paused) == (t.source, t.amendments, t.execution, t.paused)
              && u.phase.AtRequirementGate? && (!Active(t) && !t.paused ==> u.status.WaitingHuman?)
  {
    hide GateRefusal;
    if Open(t, v) && Sourced(t, v) {
      var u := Normalize(t, v, digest, questions).task;
      A.SettleKeeps(u);
      UnapprovedIsShut(Settle(u), later);
    }
  }

  /** A design is accepted exactly for the current requirements, while their approval
      and the start still hold. It has a number of its own and unseats the design
      approval only; nothing of the requirements moves. */
  lemma DesignRenews(t: Task, v: View, digest: Digest, number: nat, questions: bool)
    ensures Apply(t, v, Proposing(digest, number, questions)).Next? <==>
              Open(t, v) && BasisStands(t, v, false) && t.requirements.Some? && t.requirements.value.number == number
    ensures Apply(t, v, Proposing(digest, number, questions)).Next? ==>
              var u := Apply(t, v, Proposing(digest, number, questions)).task;
              && u.design == Some(Design(t.designCount + 1, digest, number, questions)) && u.designCount == t.designCount + 1
              && u.designApproval.None? && u.epoch == t.epoch + 1
              && u == t.(design := u.design, designCount := u.designCount, designApproval := None, epoch := u.epoch,
                         phase := u.phase, status := u.status)
  {
    hide BasisRefusal, PhaseOf, IdleStatus, FailedHere, Standing;
    BasisMeans(t, v, false);
    RefusalMeans(t, v);
    if Propose(t, v, digest, number, questions).Next? {
      A.SettleKeeps(Propose(t, v, digest, number, questions).task);
    }
  }

  // ---- Commands ----

  predicate Halts(c: Command) {
    c.Stop? || c.Cancel?
  }

  /** The role whose holder may give the command. */
  function RoleOf(c: Command): Role {
    match c
    case ApproveRequirements(_, _, _) => RequirementApprover
    case Start(_, _) => Starter
    case ApproveDesign(_) => DesignApprover
    case Amend(_) => Contributor
    case _ => Operator
  }

  predicate MayGive(v: View, comment: nat, c: Command) {
    Speaks(v, comment) && Entitled(v, v.comments[comment].actor, RoleOf(c))
  }

  lemma OneRole(v: View, actor: nat, role: Role)
    ensures HoldsRoles(v, actor, [role]) <==> Entitled(v, actor, role)
  {
    hide Entitled, HoldsRoles;
    RolesMean(v, actor, [role]);
    assert role in [role];
  }

  /** No command is accepted but from an unedited human comment whose author may write
      to the repository and, but for an amendment, is in the list of the command's
      role; and none but a stop or a cancellation on another policy, on a changed
      source or after the Issue was closed. */
  lemma CommandAuthorized(t: Task, v: View, comment: nat, c: Command)
    requires Apply(t, v, Commanding(comment, c)).Next?
    ensures Speaks(v, comment) && v.comments[comment].actor in v.writers
    ensures !c.Amend? ==> RoleOf(c) in v.allowed && v.comments[comment].actor in v.allowed[RoleOf(c)]
    ensures MayGive(v, comment, c) && !t.cancelled && !t.cancelRequested
    ensures !Halts(c) ==> Open(t, v) && Sourced(t, v)
  {
    hide RoleRefusal, HoldsRoles, ProofRefusal, BasisRefusal, ResetScope, ProofOf, FirstRefusal, StartAllowed, ModeAllowed, Settle,
         ApprovalRoles;
    CommentMeans(v, comment);
    RefusalMeans(t, v);
    var actor := v.comments[comment].actor;
    OneRole(v, actor, RoleOf(c));
    if c.ApproveRequirements? {
      RolesMean(v, actor, ApprovalRoles(t, v, c.start));
      RolesAsked(t, v, c.start);
    }
  }

  /** The start policy that an approval of the requirements leaves. */
  predicate StartsWork(t: Task, start: Option<StartPolicy>) {
    if start.Some? then start.value == OnApproval else t.startPolicy == OnApproval
  }

  /** Approving takes the approver's role, and the starter's as well if it starts the
      work where the repository asks for a start of its own. */
  lemma RolesAsked(t: Task, v: View, start: Option<StartPolicy>)
    ensures forall role :: role in ApprovalRoles(t, v, start) <==>
              role == RequirementApprover || (role == Starter && StartsWork(t, start) && v.startPolicy == Explicit)
  {
  }

  /** Nothing but its author's roles and options is left to look at of the command. */
  predicate Ripe(t: Task, v: View, comment: nat, c: Command) {
    && Speaks(v, comment) && !t.cancelled && !t.cancelRequested && (!Halts(c) ==> Open(t, v) && Sourced(t, v))
    && match c
       case ApproveRequirements(n, _, _) =>
         t.requirements.Some? && t.requirements.value.number == n && !t.requirements.value.questions && t.requirementApproval == None
       case Start(n, _) =>
         Stands(v, t.requirementApproval) && t.requirements.Some? && t.requirements.value.number == n && !t.started
       case ApproveDesign(n) =>
         && BasisStands(t, v, false) && t.design.Some? && t.design.value.number == n && !t.design.value.questions
         && t.designMode == Collaborative
       case _ => true
  }

  /** A command of somebody who does not hold its role is refused as forbidden, which is
      what has the approvals looked at again. */
  lemma StrangerForbidden(t: Task, v: View, comment: nat, c: Command)
    requires Ripe(t, v, comment, c) && !Entitled(v, v.comments[comment].actor, RoleOf(c))
    ensures Apply(t, v, Commanding(comment, c)) == Refuse(CommandForbidden)
  {
    hide HoldsRoles, RoleRefusal, ProofRefusal, BasisRefusal, Entitled, Standing, ApprovalRoles, StateRefusal, SourceRefusal,
         FirstRefusal, ResetScope, Settle;
    var actor := v.comments[comment].actor;
    CommentMeans(v, comment);
    RefusalMeans(t, v);
    ProofMeans(v, t.requirementApproval);
    BasisMeans(t, v, false);
    OneRole(v, actor, RoleOf(c));
    if c.ApproveRequirements? {
      MayApproveRoles(t, v, comment, c);
    }
  }

  /** A stop or a cancellation is accepted exactly from such a comment on a task not
      yet cancelled, whatever became of policy and source. */
  lemma HaltAccepted(t: Task, v: View, comment: nat, c: Command)
    requires Halts(c)
    ensures Apply(t, v, Commanding(comment, c)).Next? <==> MayGive(v, comment, c) && !t.cancelled && !t.cancelRequested
  {
    hide RoleRefusal, HoldsRoles, ProofRefusal, Settle, Entitled;
    CommentMeans(v, comment);
    if Speaks(v, comment) {
      OneRole(v, v.comments[comment].actor, Operator);
    }
  }

  /** An option that differs from the task's is one the repository permits. */
  predicate Permitted(t: Task, v: View, start: Option<StartPolicy>, mode: Option<DesignMode>) {
    && (start.Some? && start.value != t.startPolicy ==> start.value in v.startOverrides)
    && (mode.Some? && mode.value != t.designMode ==> mode.value in v.designOverrides)
  }

  /** What an approval of the requirements needs to be accepted. */
  predicate MayApprove(t: Task, v: View, comment: nat, c: Command)
    requires c.ApproveRequirements?
  {
    && MayGive(v, comment, c) && Open(t, v) && Sourced(t, v)
    && t.requirements.Some? && t.requirements.value.number == c.requirements && !t.requirements.value.questions
    && t.requirementApproval.None? && Permitted(t, v, c.start, c.mode)
    && (StartsWork(t, c.start) && v.startPolicy == Explicit ==> Entitled(v, v.comments[comment].actor, Starter))
  }

  lemma MayApproveRoles(t: Task, v: View, comment: nat, c: Command)
    requires c.ApproveRequirements? && Speaks(v, comment)
    ensures HoldsRoles(v, v.comments[comment].actor, ApprovalRoles(t, v, c.start)) <==>
              && Entitled(v, v.comments[comment].actor, RequirementApprover)
              && (StartsWork(t, c.start) && v.startPolicy == Explicit ==> Entitled(v, v.comments[comment].actor, Starter))
  {
    hide HoldsRoles, ApprovalRoles, Entitled, StartsWork;
    RolesMean(v, v.comments[comment].actor, ApprovalRoles(t, v, c.start));
    RolesAsked(t, v, c.start);
  }

  /** An approval is accepted exactly then; it stands as things are, it starts the work
      exactly if the start policy says so, and the epoch does not tell. */
  lemma ApprovalHolds(t: Task, v: View, comment: nat, c: Command)
    requires c.ApproveRequirements?
    ensures Apply(t, v, Commanding(comment, c)).Next? <==> MayApprove(t, v, comment, c)
    ensures MayApprove(t, v, comment, c) ==>
              var u := Apply(t, v, Commanding(comment, c)).task;
              && u.requirementApproval.Some? && u.requirementApproval.value.comment == comment
              && u.requirementApproval.value.actor == v.comments[comment].actor
              && Stands(v, u.requirementApproval) && RequirementApprover in u.requirementApproval.value.roles
              && (Starter in u.requirementApproval.value.roles <==> StartsWork(t, c.start) && v.startPolicy == Explicit)
              && (u.started <==> StartsWork(t, c.start)) && (u.startPolicy.OnApproval? <==> StartsWork(t, c.start))
              && u.designMode == (if c.mode.Some? then c.mode.value else t.designMode)
              && u == t.(requirementApproval := u.requirementApproval, started := u.started, startPolicy := u.startPolicy,
                         designMode := u.designMode, phase := u.phase, status := u.status)
  {
    hide HoldsRoles, ApprovalRoles, PhaseOf, IdleStatus, FailedHere, ProofRefusal, Entitled, Standing;
    CommentMeans(v, comment);
    RolesAsked(t, v, c.start);
    if Speaks(v, comment) {
      MayApproveRoles(t, v, comment, c);
    }
    if MayApprove(t, v, comment, c) {
      var posted := v.comments[comment];
      A.SettleKeeps(Approve(t, v, comment, posted, c).task);
      GrantHolds(v, comment, ApprovalRoles(t, v, c.start));
    }
  }

  lemma GrantHolds(v: View, comment: nat, roles: seq<Role>)
    requires Speaks(v, comment) && HoldsRoles(v, v.comments[comment].actor, roles)
    ensures Standing(v, ProofOf(comment, v.comments[comment], roles))
  {
    hide HoldsRoles, Entitled;
    RolesMean(v, v.comments[comment].actor, roles);
  }

  /** Approved requirements are not approved again, by whatever comment under
      whatever observation. */
  lemma ApprovedOnce(t: Task, v: View, comment: nat, c: Command)
    requires c.ApproveRequirements? && t.requirementApproval.Some?
    ensures Apply(t, v, Commanding(comment, c)).Refuse?
  {
    hide Apply, Entitled;
    ApprovalHolds(t, v, comment, c);
  }

  /** A start is accepted exactly once, while the approval it builds on still stands,
      by a holder of the start role; it stands as things are. */
  lemma StartHolds(t: Task, v: View, comment: nat, c: Command)
    requires c.Start?
    ensures Apply(t, v, Commanding(comment, c)).Next? <==>
              && MayGive(v, comment, c) && Open(t, v) && Sourced(t, v) && !t.started
              && Stands(v, t.requirementApproval) && Permitted(t, v, None, c.mode)
              && t.requirements.Some? && t.requirements.value.number == c.requirements
    ensures Apply(t, v, Commanding(comment, c)).Next? ==>
              var u := Apply(t, v, Commanding(comment, c)).task;
              && u.started && u.startApproval.Some? && u.startApproval.value.comment == comment
              && u.startApproval.value.actor == v.comments[comment].actor && u.startApproval.value.roles == [Starter]
              && Stands(v, u.startApproval) && u.designMode == (if c.mode.Some? then c.mode.value else t.designMode)
              && u == t.(started := true, startApproval := u.startApproval, designMode := u.designMode,
                         phase := u.phase, status := u.status)
  {
    hide HoldsRoles, RoleRefusal, PhaseOf, IdleStatus, FailedHere, ProofRefusal, Entitled, Standing;
    CommentMeans(v, comment);
    ProofMeans(v, t.requirementApproval);
    if Speaks(v, comment) {
      var posted := v.comments[comment];
      OneRole(v, posted.actor, Starter);
      if Begin(t, v, comment, posted, c).Next? {
        A.SettleKeeps(Begin(t, v, comment, posted, c).task);
        GrantHolds(v, comment, [Starter]);
      }
    }
  }

  /** A design approval is accepted exactly on a standing basis, for the current
      question-free design of a collaborative task, from a design approver. */
  lemma DesignApprovalAccepted(t: Task, v: View, comment: nat, c: Command)
    requires c.ApproveDesign?
    ensures Apply(t, v, Commanding(comment, c)).Next? <==>
              && MayGive(v, comment, c) && Open(t, v) && BasisStands(t, v, false) && t.designMode == Collaborative
              && t.design.Some? && t.design.value.number == c.design && !t.design.value.questions
  {
    hide HoldsRoles, RoleRefusal, BasisRefusal, Settle, Entitled, Standing;
    CommentMeans(v, comment);
    RefusalMeans(t, v);
    BasisMeans(t, v, false);
    if Speaks(v, comment) {
      OneRole(v, v.comments[comment].actor, DesignApprover);
    }
  }

  /** Approving the design is what the gate waited for: seen the same way, a command
      may then be reserved, unless one is active, the task is paused or a command
      failed in the same epoch. */
  lemma DesignApprovalOpens(t: Task, v: View, comment: nat, c: Command)
    requires A.Inv(t) && c.ApproveDesign? && Apply(t, v, Commanding(comment, c)).Next?
    ensures var u := Apply(t, v, Commanding(comment, c)).task;
            && u.designApproval.Some? && u.designApproval.value.comment == comment && Stands(v, u.designApproval)
            && u.designApproval.value.actor == v.comments[comment].actor && u.designApproval.value.roles == [DesignApprover]
            && u == t.(designApproval := u.designApproval, phase := u.phase, status := u.status)
            && u.phase.InImplementation?
            && (GateRefusal(u, v).None? <==> !Active(t) && !t.paused && !FailedNow(t))
  {
    hide HoldsRoles, ApprovalRoles, ProofRefusal, CommentRefusal, Settle, GateRefusal, BasisRefusal, Entitled, Standing;
    CommandAuthorized(t, v, comment, c);
    CommentMeans(v, comment);
    DesignApprovalAccepted(t, v, comment, c);
    var posted := v.comments[comment];
    var u := AcceptDesign(t, v, comment, posted, c).task;
    A.SettleKeeps(u);
    GrantHolds(v, comment, [DesignApprover]);
    SettleShows(u);
    GateExactly(u, v);
  }

  /** The requirements a command refers to, if it names any. */
  function Named(c: Command): Option<nat> {
    match c
    case ApproveRequirements(requirements, _, _) => Some(requirements)
    case Start(requirements, _) => Some(requirements)
    case Amend(requirements) => Some(requirements)
    case _ => None
  }

  lemma NamesCurrent(t: Task, v: View, comment: nat, c: Command)
    requires Named(c).Some? && Apply(t, v, Commanding(comment, c)).Next?
    ensures t.requirements.Some? && t.requirements.value.number == Named(c).value
  {
    hide HoldsRoles, ProofRefusal, StateRefusal, SourceRefusal, CommentRefusal, Settle, ApprovalRoles, StartAllowed, ModeAllowed;
  }

  /** An amendment is accepted exactly from a contributor, on the present policy and
      source, for the current requirements. */
  lemma AmendmentAccepted(t: Task, v: View, comment: nat, c: Command)
    requires c.Amend?
    ensures Apply(t, v, Commanding(comment, c)).Next? <==>
              && MayGive(v, comment, c) && Open(t, v) && Sourced(t, v)
              && t.requirements.Some? && t.requirements.value.number == c.requirements
  {
    hide HoldsRoles, RoleRefusal, Settle, Entitled, ResetScope;
    CommentMeans(v, comment);
    RefusalMeans(t, v);
    if Speaks(v, comment) {
      OneRole(v, v.comments[comment].actor, Contributor);
    }
  }

  /** An amendment joins the earlier ones and takes back requirements, design and all
      approvals: nothing is reserved, and no command about requirements is taken,
      until new ones are written. */
  lemma AmendmentReopens(t: Task, v: View, comment: nat, c: Command, later: View, other: nat, next: Command)
    requires c.Amend? && Apply(t, v, Commanding(comment, c)).Next?
    ensures var u := Apply(t, v, Commanding(comment, c)).task;
            && u.amendments == t.amendments + [v.comments[comment].document]
            && Unapproved(u) && u.requirements.None? && u.design.None? && u.epoch == t.epoch + 1
            && u.source == t.source && u.execution == t.execution && GateRefusal(u, later).Some?
            && (Named(next).Some? ==> Apply(u, later, Commanding(other, next)).Refuse?)
  {
    hide HoldsRoles, RoleRefusal, StateRefusal, SourceRefusal, GateRefusal, Settle, Handle;
    CommandAuthorized(t, v, comment, c);
    AmendedTask(t, v, comment, c);
    var u := ResetScope(t.(amendments := t.amendments + [v.comments[comment].document]));
    A.SettleKeeps(u);
    UnapprovedIsShut(Settle(u), later);
    if Named(next).Some? && Apply(Settle(u), later, Commanding(other, next)).Next? {
      NamesCurrent(Settle(u), later, other, next);
    }
  }

  lemma AmendedTask(t: Task, v: View, comment: nat, c: Command)
    requires c.Amend? && Handle(t, v, comment, c).Next? && comment in v.comments && v.comments[comment].Posted?
    ensures Handle(t, v, comment, c).task == ResetScope(t.(amendments := t.amendments + [v.comments[comment].document]))
  {
    hide HoldsRoles, StateRefusal, SourceRefusal, CommentRefusal, ResetScope;
  }

  /** A stop holds every command back, and a cancellation ends the task at once or,
      with a command active, as soon as it has stopped; neither touches a document,
      an approval or the command itself. */
  lemma HaltKeepsApprovals(t: Task, v: View, comment: nat, c: Command, later: View)
    requires Halts(c) && Apply(t, v, Commanding(comment, c)).Next?
    ensures var u := Apply(t, v, Commanding(comment, c)).task;
            && u == t.(paused := c.Stop?, cancelled := u.cancelled, cancelRequested := u.cancelRequested, epoch := t.epoch + 1,
                       phase := u.phase, status := u.status)
            && (u.cancelled <==> c.Cancel? && !Active(t)) && (u.cancelRequested <==> c.Cancel? && Active(t))
            && GateRefusal(u, later).Some?
  {
    hide HoldsRoles, RoleRefusal, SourceRefusal, BasisRefusal, PhaseOf, IdleStatus, FailedHere;
    CommandAuthorized(t, v, comment, c);
    HaltedTask(t, v, comment, c);
    SettleShows(t.(paused := c.Stop?, cancelRequested := c.Cancel? && Active(t), cancelled := c.Cancel? && !Active(t),
                   epoch := t.epoch + 1));
  }

  lemma HaltedTask(t: Task, v: View, comment: nat, c: Command)
    requires Halts(c) && Handle(t, v, comment, c).Next?
    ensures Handle(t, v, comment, c).task
         == t.(paused := c.Stop?, cancelRequested := c.Cancel? && Active(t), cancelled := c.Cancel? && !Active(t), epoch := t.epoch + 1)
  {
    hide HoldsRoles, StateRefusal, CommentRefusal;
  }

  /** What a cancelled task still takes: records of what its command came to, a
      withdrawal of approvals, and notes. */
  predicate StillTaken(a: Action) {
    a.Recording? || a.Withdrawing? || a.Noting?
  }

  /** Once cancelled, or with a cancellation open, a task takes nothing else. */
  lemma CancellationBlocks(t: Task, v: View, a: Action)
    requires (t.cancelled || t.cancelRequested) && !StillTaken(a)
    ensures Apply(t, v, a).Refuse?
  {
    hide SourceRefusal, CommentRefusal, ProofRefusal, BasisRefusal, Settle, Approve, Begin, AcceptDesign, Revise, Operate,
         FirstUndecided, Captured, Withdrawn;
  }

  /** Every approval in force stands as things are. */
  ghost predicate HeldNow(t: Task, v: View) {
    forall g: A.Gate :: A.Held(t, g).Some? ==> Standing(v, A.Held(t, g).value)
  }

  /** A pause ends exactly by an operator's resume with every approval in force still
      standing; the new epoch tells the resumed task from the paused one. */
  lemma ResumeRechecks(t: Task, v: View, comment: nat)
    ensures Apply(t, v, Commanding(comment, Resume)).Next? <==>
              MayGive(v, comment, Resume) && Open(t, v) && Sourced(t, v) && t.paused && HeldNow(t, v)
    ensures Apply(t, v, Commanding(comment, Resume)).Next? ==>
              var u := Apply(t, v, Commanding(comment, Resume)).task;
              u == t.(paused := false, epoch := t.epoch + 1, phase := u.phase, status := u.status)
  {
    hide HoldsRoles, RoleRefusal, ProofRefusal, PhaseOf, IdleStatus, FailedHere, FirstRefusal, Entitled, HeldNow;
    CommentMeans(v, comment);
    RefusalMeans(t, v);
    FirstOfHeld(t, v);
    if Speaks(v, comment) {
      OneRole(v, v.comments[comment].actor, Operator);
      if Operate(t, v, v.comments[comment], Resume).Next? && Open(t, v) {
        A.SettleKeeps(Operate(t, v, v.comments[comment], Resume).task);
      }
    }
  }

  /** So an approval whose comment reads otherwise now, or whose author has left the
      list of one of its roles or may no longer write, keeps the task paused. */
  lemma LostApprovalStaysPaused(t: Task, v: View, comment: nat, g: A.Gate, role: Role)
    requires A.Held(t, g).Some? && A.Held(t, g).value.comment in v.comments
    requires var p := A.Held(t, g).value;
             var posted := v.comments[p.comment];
             && posted.Posted?
             && (|| posted.document != p.document || posted.edited
                 || (role in p.roles && posted.actor !in v.writers)
                 || (role in p.roles && role != Contributor && !(role in v.allowed && posted.actor in v.allowed[role])))
    ensures Apply(t, v, Commanding(comment, Resume)).Refuse?
  {
    hide Apply, MayGive, Open, Sourced;
    ResumeRechecks(t, v, comment);
  }

  lemma FirstOfHeld(t: Task, v: View)
    ensures FirstRefusal(v, [t.requirementApproval, t.startApproval, t.designApproval]).None? <==> HeldNow(t, v)
  {
    hide ProofRefusal, FirstRefusal, Standing;
    var proofs := [t.requirementApproval, t.startApproval, t.designApproval];
    assert proofs[1..] == [t.startApproval, t.designApproval];
    assert proofs[1..][1..] == [t.designApproval];
    assert proofs[1..][1..][1..] == [];
    FirstRefused(v, proofs[1..][1..]);
    NoneRefused(v);
    FirstRefused(v, proofs[1..]);
    FirstRefused(v, proofs);
    assert A.Held(t, A.RequirementGate) == proofs[0] && A.Held(t, A.StartGate) == proofs[1] && A.Held(t, A.DesignGate) == proofs[2];
  }

  lemma NoneRefused(v: View)
    ensures FirstRefusal(v, []).None?
  {
  }

  lemma FirstRefused(v: View, proofs: seq<Option<Proof>>)
    requires proofs != []
    ensures FirstRefusal(v, proofs).None? <==>
              (proofs[0].Some? ==> Standing(v, proofs[0].value)) && FirstRefusal(v, proofs[1..]).None?
  {
    hide ProofRefusal, Standing;
    ProofMeans(v, proofs[0]);
  }

  // ---- Reconciliation, withdrawal and policy ----

  /** The approval of the gate, or one it rests on, is seen to be good no more. */
  predicate Falls(t: Task, v: View, g: A.Gate) {
    || Lapsed(v, A.Held(t, g))
    || (!g.RequirementGate? && Lapsed(v, t.requirementApproval))
    || (g.DesignGate? && Lapsed(v, t.startApproval))
  }

  predicate SeenAt(t: Task, v: View, g: A.Gate) {
    A.Held(t, g).Some? ==> !Unseen(v, A.Held(t, g).value)
  }

  /** Reconciling is refused exactly on a closed task, on another policy, on a changed
      source, or when the comment of some approval in force cannot be looked at. It
      takes back exactly the approvals that fall, gives none, and the epoch moves
      exactly if one did. */
  lemma ReconcileExactly(t: Task, v: View, g: A.Gate)
    ensures Apply(t, v, Reconciling).Next? <==> Open(t, v) && Sourced(t, v) && forall h: A.Gate :: SeenAt(t, v, h)
    ensures Apply(t, v, Reconciling).Next? ==>
              var u := Apply(t, v, Reconciling).task;
              && A.Held(u, g) == (if Falls(t, v, g) then None else A.Held(t, g))
              && (u.started <==> t.started && !Falls(t, v, A.StartGate))
              && u.epoch == t.epoch + (if exists h: A.Gate :: Falls(t, v, h) then 1 else 0)
              && (u.requirements, u.design, u.execution, u.source) == (t.requirements, t.design, t.execution, t.source)
  {
    hide Undecided, ProofRefusal, Revoked, Settle, Standing, Unseen, Lapsed;
    RefusalMeans(t, v);
    NothingUndecided(t, v);
    FallsAnywhere(t, v);
    ProofMeans(v, t.requirementApproval);
    ProofMeans(v, t.startApproval);
    ProofMeans(v, t.designApproval);
    if Reconcile(t, v).Next? {
      A.SettleKeeps(Reconcile(t, v).task);
    }
  }

  /** So after reconciling no approval is in force whose comment is gone or reads
      otherwise, or whose author has left the list of one of its roles. */
  lemma LostApprovalTakenBack(t: Task, v: View, g: A.Gate, role: Role)
    requires Apply(t, v, Reconciling).Next?
    ensures var u := Apply(t, v, Reconciling).task;
            A.Held(u, g).Some? ==>
              var p := A.Held(u, g).value;
              && p.comment in v.comments && v.comments[p.comment].Posted? && !v.comments[p.comment].edited
              && v.comments[p.comment].human && v.comments[p.comment].document == p.document
              && (role in p.roles ==> v.comments[p.comment].actor in v.writers)
              && (role in p.roles && role != Contributor ==>
                    role in v.allowed && v.comments[p.comment].actor in v.allowed[role])
  {
    hide Apply;
    ReconcileExactly(t, v, g);
    assert SeenAt(t, v, g);
  }

  lemma NothingUndecided(t: Task, v: View)
    ensures FirstUndecided(v, t).None? <==> forall h: A.Gate :: SeenAt(t, v, h)
  {
    hide Undecided, Unseen, ProofRefusal;
    ProofMeans(v, t.requirementApproval);
    ProofMeans(v, t.startApproval);
    ProofMeans(v, t.designApproval);
    assert SeenAt(t, v, A.RequirementGate) <==> (t.requirementApproval.Some? ==> !Unseen(v, t.requirementApproval.value));
    assert SeenAt(t, v, A.StartGate) <==> (t.startApproval.Some? ==> !Unseen(v, t.startApproval.value));
    assert SeenAt(t, v, A.DesignGate) <==> (t.designApproval.Some? ==> !Unseen(v, t.designApproval.value));
  }

  lemma FallsAnywhere(t: Task, v: View)
    ensures (exists h: A.Gate :: Falls(t, v, h)) <==>
              Lapsed(v, t.requirementApproval) || Lapsed(v, t.startApproval) || Lapsed(v, t.designApproval)
  {
    hide Lapsed;
    assert Falls(t, v, A.RequirementGate) <==> Lapsed(v, t.requirementApproval);
    assert Lapsed(v, t.startApproval) ==> Falls(t, v, A.StartGate);
    assert Lapsed(v, t.designApproval) ==> Falls(t, v, A.DesignGate);
  }

  lemma ReconciledStanding(t: Task, v: View)
    requires Apply(t, v, Reconciling).Next?
    ensures var u := Apply(t, v, Reconciling).task; Open(u, v) && Sourced(u, v)
  {
    hide FirstUndecided, ProofRefusal, Revoked, Settle;
    A.SettleKeeps(Reconcile(t, v).task);
  }

  lemma HeldStays(t: Task, v: View)
    requires A.Inv(t) && Open(t, v) && Sourced(t, v) && HeldNow(t, v)
    ensures Apply(t, v, Reconciling) == Next(t)
  {
    hide ProofRefusal, Revoked, FirstUndecided, A.Ordered, Settle, Standing;
    assert A.Held(t, A.RequirementGate) == t.requirementApproval;
    assert A.Held(t, A.StartGate) == t.startApproval && A.Held(t, A.DesignGate) == t.designApproval;
    ProofMeans(v, t.requirementApproval);
    ProofMeans(v, t.startApproval);
    ProofMeans(v, t.designApproval);
    RefusalMeans(t, v);
    HeldIsSeen(t, v);
    NothingUndecided(t, v);
  }

  lemma HeldIsSeen(t: Task, v: View)
    requires HeldNow(t, v)
    ensures forall h: A.Gate :: SeenAt(t, v, h)
  {
  }

  /** What is left stands as things are: reconciling again changes nothing. */
  lemma ReconcileTwice(t: Task, v: View)
    requires A.Inv(t) && Apply(t, v, Reconciling).Next?
    ensures var u := Apply(t, v, Reconciling).task; HeldNow(u, v) && Apply(u, v, Reconciling) == Next(u)
  {
    hide Standing, Apply, A.Inv, Open, Sourced, Unseen;
    var u := Apply(t, v, Reconciling).task;
    forall g: A.Gate | A.Held(u, g).Some?
      ensures Standing(v, A.Held(u, g).value)
    {
      ReconcileExactly(t, v, g);
      assert SeenAt(t, v, g);
    }
    A.InvStep(t, v, Reconciling);
    ReconciledStanding(t, v);
    HeldStays(u, v);
  }

  /** A publication whose basis is gone takes every approval back, whatever state the
      task is in; no command is reserved until they are given again. */
  lemma WithdrawalShuts(t: Task, v: View, later: View)
    ensures Apply(t, v, Withdrawing).Next?
    ensures var u := Apply(t, v, Withdrawing).task;
            && Unapproved(u) && u.epoch == t.epoch + 1 && GateRefusal(u, later).Some?
            && (u.requirements, u.design, u.source, u.execution) == (t.requirements, t.design, t.source, t.execution)
  {
    hide Settle, GateRefusal;
    var u := Withdraw(t).task;
    A.SettleKeeps(u);
    UnapprovedIsShut(Settle(u), later);
  }

  /** A refresh is refused exactly on a closed task. Afterwards the task follows the
      present policy: nothing moves if it did already, and otherwise every approval
      is gone. Refreshing again changes nothing. */
  lemma RefreshFollowsPolicy(t: Task, v: View, later: View)
    requires A.Inv(t)
    ensures Apply(t, v, Refreshing).Next? <==> !t.cancelled && !t.cancelRequested
    ensures t.cancelled ==> Apply(t, v, Refreshing) == Refuse(TaskTerminal)
    ensures !t.cancelled && t.cancelRequested ==> Apply(t, v, Refreshing) == Refuse(TaskCancelling)
    ensures Apply(t, v, Refreshing).Next? ==>
              var u := Apply(t, v, Refreshing).task;
              && Open(u, v) && Apply(u, v, Refreshing) == Next(u)
              && (t.config == v.config ==> u == t)
              && (t.config != v.config ==>
                    && Unapproved(u) && u.requirements.None? && u.startPolicy == v.startPolicy && u.designMode == v.designMode
                    && u.source == t.source && u.epoch == t.epoch + 1 && GateRefusal(u, later).Some?)
  {
    hide Settle, GateRefusal, A.Ordered;
    if Refresh(t, v).Next? {
      var u := Refresh(t, v).task;
      A.SettleKeeps(u);
      A.SettleTwice(u);
      if t.config != v.config {
        UnapprovedIsShut(Settle(u), later);
      }
    }
  }

  /** Records of the agent, the sessions and the publisher leave the task as it is. */
  lemma NotesChangeNothing(t: Task, v: View)
    requires A.Inv(t)
    ensures Apply(t, v, Noting) == Next(t)
  {
    hide Settle, A.Ordered;
  }

  // ---- Commands to run ----

  /** The basis of a run is intact: policy, epoch and documents are those it was
      reserved on, and source, start and approvals stand. */
  predicate RunStands(t: Task, v: View, e: Execution) {
    && Open(t, v) && !t.paused && t.epoch == e.epoch && t.config == e.config
    && t.requirements.Some? && t.requirements.value.number == e.requirements
    && t.design.Some? && t.design.value.number == e.design && BasisStands(t, v, true)
  }

  lemma RunBasisMeans(t: Task, v: View, e: Execution)
    ensures X.BasisLoss(t, v, e).None? <==> RunStands(t, v, e)
    ensures !Open(t, v) ==> X.BasisLoss(t, v, e) == StateRefusal(t, v, true)
    ensures Open(t, v)
            && (t.paused || t.epoch != e.epoch || t.config != e.config || t.requirements == None || t.design == None
                || t.requirements.value.number != e.requirements || t.design.value.number != e.design) ==>
              X.BasisLoss(t, v, e) == Some(RunBasisChanged)
  {
    hide BasisRefusal, Standing, StateRefusal;
    BasisMeans(t, v, true);
    RefusalMeans(t, v);
  }

  /** A reservation is accepted exactly by an open gate. It takes the slot and nothing
      else, and names the epoch, policy and documents it rests on; its basis is intact
      under the same observation, and no other command is reserved under any while it
      is active. */
  lemma ReservationTakesSlot(t: Task, v: View, run: string, plan: Digest, later: View, other: string, next: Digest)
    requires A.Inv(t)
    ensures Apply(t, v, Reserving(run, plan)).Next? <==> Ready(t) && t.config == v.config && BasisStands(t, v, true)
    ensures Apply(t, v, Reserving(run, plan)).Next? ==>
              var u := Apply(t, v, Reserving(run, plan)).task;
              && u == t.(execution := u.execution, status := u.status) && Active(u)
              && u.execution == Some(Execution(run, Reserved, plan, t.epoch, t.requirements.value.number,
                                               t.design.value.number, t.config, NoReason, false))
              && RunStands(u, v, u.execution.value) && Apply(u, later, Reserving(other, next)).Refuse?
  {
    hide BasisRefusal, FailedHere, IdleStatus, Standing;
    GateExactly(t, v);
    if GateRefusal(t, v).None? {
      OpenHasDocuments(t, v);
      A.SettleKeeps(Reserve(t, v, run, plan).task);
      BasisMeans(t, v, true);
    }
  }

  lemma OpenHasDocuments(t: Task, v: View)
    requires A.Inv(t) && GateRefusal(t, v).None?
    ensures t.requirements.Some? && t.design.Some? && PhaseOf(t) == t.phase
  {
    hide BasisRefusal, FailedHere;
    A.SettleKeeps(t);
  }

  /** A record is taken exactly for the run in the slot, in whatever state the task is
      otherwise; it changes that run's status, reason and whether it has stopped, and
      completes a cancellation that waited for it to end. */
  lemma RecordTaken(t: Task, v: View, run: string, status: RunStatus, reason: Reason, stopped: bool)
    ensures Apply(t, v, Recording(run, status, reason, stopped)).Next? <==>
              t.execution.Some? && t.execution.value.run == run
    ensures Apply(t, v, Recording(run, status, reason, stopped)).Next? ==>
              var u := Apply(t, v, Recording(run, status, reason, stopped)).task;
              var live := status == Reserved || status == Dispatching || status == RunStatus.Running || status == Uncertain;
              && u.execution == Some(t.execution.value.(status := status, reason := reason, stopped := stopped))
              && u == t.(execution := u.execution, phase := u.phase, status := u.status,
                         cancelled := u.cancelled, cancelRequested := u.cancelRequested)
              && (u.cancelled <==> t.cancelled || (t.cancelRequested && !live))
              && (u.cancelRequested <==> t.cancelRequested && live)
  {
    hide PhaseOf, IdleStatus, FailedHere;
  }

  /** Releasing a run for repair is accepted exactly for the failed run in the slot,
      failed by its own tests and confirmed stopped, under the approvals it ran
      with. The slot is empty then and the gate open as before the run. */
  lemma RepairReopens(t: Task, v: View, run: string)
    requires A.Inv(t)
    ensures Apply(t, v, Repairing(run)).Next? <==>
              && Open(t, v) && BasisStands(t, v, true) && !t.paused
              && t.execution.Some? && t.execution.value.run == run && t.execution.value.status == RunStatus.Failed
              && t.execution.value.stopped && t.execution.value.epoch == t.epoch
              && (t.execution.value.reason == CommandExit || t.execution.value.reason == ReportsFailedOrEmpty)
    ensures Apply(t, v, Repairing(run)).Next? ==>
              var u := Apply(t, v, Repairing(run)).task;
              && u == t.(execution := None, status := u.status)
              && (GateRefusal(u, v).None? <==> Designed(t))
              && (Designed(t) ==> GateRefusal(t, v).Some?)
  {
    hide BasisRefusal, Settle, Standing, StateRefusal, A.Ordered;
    BasisMeans(t, v, true);
    RefusalMeans(t, v);
    if PrepareRepair(t, v, run).Next? {
      var u := PrepareRepair(t, v, run).task;
      A.SettleKeeps(u);
      A.SettleKeeps(t);
      GateExactly(u, v);
      GateExactly(t, v);
    }
  }

  // ---- Who stands behind an approval ----

  /** Every approval in force was given by one committed command, in an unedited human
      comment, by a person who could write and was in the list of the gate's role and
      of every other role the approval names. */
  lemma GrantorEntitled(log: seq<A.Event>, n: nat, g: A.Gate, role: Role)
    requires A.LegalLog(log) && 0 < n <= |log| && A.Held(A.TaskAt(log, n), g).Some?
    ensures exists k :: 0 <= k < n && GrantAt(log[k], g, A.Held(A.TaskAt(log, n), g).value, role)
  {
    hide A.TaskAt, A.LegalLog, A.GrantedBy, GrantAt;
    A.ApprovalGranted(log, n, g);
    var p := A.Held(A.TaskAt(log, n), g).value;
    var k :| 0 <= k < n && A.GrantedBy(log[k], g, p);
    GrantedAt(log[k], g, p, role);
  }

  /** The event is the gate's command, from this comment, by the approval's author, who
      holds the gate's role and, if the approval names it, the other one. */
  predicate GrantAt(e: A.Event, g: A.Gate, p: Proof, role: Role) {
    && e.action.Commanding? && e.action.comment == p.comment && Speaks(e.view, p.comment)
    && (match g
        case RequirementGate => e.action.command.ApproveRequirements? && InList(e.view, p.actor, RequirementApprover)
        case StartGate => e.action.command.Start? && InList(e.view, p.actor, Starter)
        case DesignGate => e.action.command.ApproveDesign? && InList(e.view, p.actor, DesignApprover))
    && e.view.comments[p.comment].actor == p.actor && e.view.comments[p.comment].document == p.document
    && p.actor in e.view.writers
    && (role in p.roles && role != Contributor ==> InList(e.view, p.actor, role))
  }

  predicate InList(v: View, actor: nat, role: Role) {
    role in v.allowed && actor in v.allowed[role]
  }

  lemma GrantedAt(e: A.Event, g: A.Gate, p: Proof, role: Role)
    requires A.GrantedBy(e, g, p)
    ensures GrantAt(e, g, p, role)
  {
    hide HoldsRoles;
    CommentMeans(e.view, p.comment);
    RolesMean(e.view, p.actor, p.roles);
    assert Entitled(e.view, p.actor, A.RoleAt(g));
  }
}
