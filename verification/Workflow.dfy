/** One task's workflow state and every way a committed event can change it:
    Issue observations, requirements, designs, human commands, reconciliation,
    policy refresh, command execution records and publication blocks. */
module Workflow {
  import opened Results

  type Digest = string

  /** An observed Issue document; a new version alone is no change of source. */
  datatype Source = Source(content: string, open: bool, version: string)

  datatype Role = Contributor | RequirementApprover | Starter | DesignApprover | Operator

  datatype Proof = Proof(comment: nat, actor: nat, document: Digest, roles: seq<Role>)

  datatype Requirements = Requirements(number: nat, digest: Digest, source: Source, amendments: seq<Digest>, questions: bool)

  datatype Design = Design(number: nat, digest: Digest, requirements: nat, questions: bool)

  datatype StartPolicy = Explicit | OnApproval

  datatype DesignMode = Collaborative | Automatic

  datatype RunStatus = Reserved | Dispatching | Running | Uncertain | Succeeded | Failed | Stale

  datatype Reason = NoReason | CommandExit | ReportsFailedOrEmpty | BasisLost(loss: Code) | OtherReason(code: string)

  datatype Execution = Execution(run: string, status: RunStatus, plan: Digest, epoch: nat, requirements: nat, design: nat,
                                 config: Digest, reason: Reason, stopped: bool)

  datatype Phase = InRequirements | AtRequirementGate | InDesign | InImplementation

  datatype Status = Queued | WaitingHuman | Executing | CancelRequested | Blocked | FailedRun | Paused | Cancelled

  datatype Task = Task(
    config: Digest, source: Source, sourceRevision: nat, observed: Source,
    requirementsCount: nat, designCount: nat, amendments: seq<Digest>,
    requirements: Option<Requirements>, requirementApproval: Option<Proof>, started: bool, startApproval: Option<Proof>,
    design: Option<Design>, designApproval: Option<Proof>,
    paused: bool, cancelled: bool, cancelRequested: bool, epoch: nat,
    startPolicy: StartPolicy, designMode: DesignMode,
    execution: Option<Execution>, phase: Phase, status: Status)

  predicate IsActive(s: RunStatus) {
    s.Reserved? || s.Dispatching? || s.Running? || s.Uncertain?
  }

  predicate Active(t: Task) {
    t.execution.Some? && IsActive(t.execution.value.status)
  }

  function PhaseOf(t: Task): Phase {
    if t.requirements.None? then InRequirements
    else if t.requirementApproval.None? || !t.started then AtRequirementGate
    else if t.design.None? || t.design.value.questions || (t.designMode.Collaborative? && t.designApproval.None?) then InDesign
    else InImplementation
  }

  function IdleStatus(t: Task): Status {
    if t.requirements.None? then Queued
    else if t.requirementApproval.None? || !t.started then WaitingHuman
    else if t.design.None? then Queued
    else if t.design.value.questions || (t.designMode.Collaborative? && t.designApproval.None?) then WaitingHuman
    else Queued
  }

  /** The run in the slot failed under the approvals that still hold. */
  predicate FailedHere(t: Task) {
    && t.execution.Some? && (t.execution.value.status.Failed? || t.execution.value.status.Stale?)
    && t.execution.value.epoch == t.epoch && PhaseOf(t).InImplementation?
  }

  /** After every change: phase and status follow from the rest, and a requested
      cancellation takes effect once no command is active. */
  function Settle(t: Task): Task {
    if Active(t) then
      t.(phase := PhaseOf(t),
         status := if t.cancelRequested then CancelRequested
                   else if t.execution.value.status.Uncertain? then Blocked
                   else if t.execution.value.status.Reserved? then Queued else Executing)
    else
      var u := if t.cancelRequested then t.(cancelled := true, cancelRequested := false) else t;
      u.(phase := PhaseOf(t),
         status := if u.cancelled then Cancelled else if u.paused then Paused
                   else if FailedHere(t) then FailedRun else IdleStatus(t))
  }

  function ResetScope(t: Task): Task {
    t.(requirements := None, requirementApproval := None, started := false, startApproval := None,
       design := None, designApproval := None, epoch := t.epoch + 1)
  }

  // ---- What is observed when a change is committed ----

  /** What a look for a comment finds; a failed look tells nothing about it. */
  datatype Evidence = Missing | Unobservable | Posted(actor: nat, human: bool, edited: bool, document: Digest)

  datatype View = View(issue: Source, comments: map<nat, Evidence>, writers: set<nat>, allowed: map<Role, set<nat>>,
                       config: Digest, startPolicy: StartPolicy, designMode: DesignMode,
                       startOverrides: set<StartPolicy>, designOverrides: set<DesignMode>)

  datatype Code = TaskMissing | PolicyChanged | TaskTerminal | TaskCancelling | IssueClosed | SourceChanged
                | ApprovalRequired | ApprovalRevoked | CommandEdited | CommandForbidden | CommandActor | StartRequired
                | RevisionStale | QuestionsOpen | AlreadyApproved | AlreadyStarted | OverrideForbidden | DesignAutomatic
                | TaskNotPaused | GateClosed | RepairDenied | RunConflict | RunBasisChanged | NotPublished | ObservationFailed

  datatype Outcome = Next(task: Task) | Refuse(code: Code)

  predicate SameSource(a: Source, b: Source) {
    a.content == b.content && a.open == b.open
  }

  function StateRefusal(t: Task, v: View, policy: bool): Option<Code> {
    if policy && t.config != v.config then Some(PolicyChanged)
    else if t.cancelled then Some(TaskTerminal)
    else if t.cancelRequested then Some(TaskCancelling)
    else None
  }

  function SourceRefusal(t: Task, v: View): Option<Code> {
    if !v.issue.open then Some(IssueClosed)
    else if !SameSource(t.source, v.issue) then Some(SourceChanged)
    else None
  }

  function CommentRefusal(v: View, comment: nat): Option<Code> {
    if comment !in v.comments || v.comments[comment].Missing? then Some(ApprovalRevoked)
    else if v.comments[comment].Unobservable? then Some(ObservationFailed)
    else if !v.comments[comment].human then Some(CommandActor)
    else if v.comments[comment].edited then Some(CommandEdited)
    else None
  }

  function RoleRefusal(v: View, actor: nat, role: Role): Option<Code> {
    if actor !in v.writers then Some(CommandForbidden)
    else if !role.Contributor? && !(role in v.allowed && actor in v.allowed[role]) then Some(CommandForbidden)
    else None
  }

  predicate HoldsRoles(v: View, actor: nat, roles: seq<Role>) {
    forall role <- roles :: RoleRefusal(v, actor, role).None?
  }

  function ProofRefusal(v: View, proof: Option<Proof>): Option<Code> {
    if proof.None? then Some(ApprovalRequired)
    else
      var p := proof.value;
      if CommentRefusal(v, p.comment).Some? then CommentRefusal(v, p.comment)
      else if v.comments[p.comment].document != p.document then Some(ApprovalRevoked)
      else if !HoldsRoles(v, v.comments[p.comment].actor, p.roles) then Some(CommandForbidden)
      else None
  }

  function BasisRefusal(t: Task, v: View, design: bool): Option<Code> {
    if SourceRefusal(t, v).Some? then SourceRefusal(t, v)
    else if ProofRefusal(v, t.requirementApproval).Some? then ProofRefusal(v, t.requirementApproval)
    else if !t.started then Some(StartRequired)
    else if t.startApproval.Some? && ProofRefusal(v, t.startApproval).Some? then ProofRefusal(v, t.startApproval)
    else if design && t.designMode.Collaborative? && ProofRefusal(v, t.designApproval).Some? then ProofRefusal(v, t.designApproval)
    else None
  }

  // ---- The changes ----

  function Fresh(v: View): Task {
    Settle(Captured(ResetScope(
      Task(v.config, v.issue, 0, v.issue, 0, 0, [], None, None, false, None, None, None, false, false, false, 0,
           v.startPolicy, v.designMode, None, InRequirements, Queued)), v, true))
  }

  /** The last part of capturing: a changed source is counted, and a closed Issue
      cancels, at once or once the active command has stopped. */
  function Captured(t: Task, v: View, changed: bool): Task {
    var u := if changed then t.(sourceRevision := t.sourceRevision + 1, source := v.issue) else t;
    var w := u.(observed := v.issue);
    if v.issue.open then w else w.(cancelRequested := Active(w), cancelled := !Active(w))
  }

  function Capture(t: Task, v: View): Outcome {
    if StateRefusal(t, v, true).Some? then Refuse(StateRefusal(t, v, true).value)
    else
      var same := SameSource(t.source, v.issue);
      var u := if same then t else ResetScope(t).(amendments := []);
      Next(Captured(u, v, !same))
  }

  function Normalize(t: Task, v: View, digest: Digest, questions: bool): Outcome {
    if StateRefusal(t, v, true).Some? then Refuse(StateRefusal(t, v, true).value)
    else if SourceRefusal(t, v).Some? then Refuse(SourceRefusal(t, v).value)
    else
      var u := ResetScope(t);
      Next(u.(requirementsCount := t.requirementsCount + 1,
              requirements := Some(Requirements(t.requirementsCount + 1, digest, t.source, t.amendments, questions))))
  }

  function Propose(t: Task, v: View, digest: Digest, requirements: nat, questions: bool): Outcome {
    if StateRefusal(t, v, true).Some? then Refuse(StateRefusal(t, v, true).value)
    else if BasisRefusal(t, v, false).Some? then Refuse(BasisRefusal(t, v, false).value)
    else if t.requirements.None? || t.requirements.value.number != requirements then Refuse(RevisionStale)
    else Next(t.(designCount := t.designCount + 1,
                 design := Some(Design(t.designCount + 1, digest, requirements, questions)),
                 designApproval := None, epoch := t.epoch + 1))
  }

  datatype Command =
    | ApproveRequirements(requirements: nat, start: Option<StartPolicy>, mode: Option<DesignMode>)
    | Start(requirements: nat, mode: Option<DesignMode>)
    | ApproveDesign(design: nat)
    | Amend(requirements: nat)
    | Stop
    | Cancel
    | Resume

  predicate StartAllowed(t: Task, v: View, start: Option<StartPolicy>) {
    start.None? || start.value == t.startPolicy || start.value in v.startOverrides
  }

  predicate ModeAllowed(t: Task, v: View, mode: Option<DesignMode>) {
    mode.None? || mode.value == t.designMode || mode.value in v.designOverrides
  }

  function Or<T>(o: Option<T>, default: T): T {
    if o.Some? then o.value else default
  }

  function ApprovalRoles(t: Task, v: View, start: Option<StartPolicy>): seq<Role> {
    [RequirementApprover] + if Or(start, t.startPolicy).OnApproval? && !v.startPolicy.OnApproval? then [Starter] else []
  }

  function ProofOf(comment: nat, posted: Evidence, roles: seq<Role>): Proof
    requires posted.Posted?
  {
    Proof(comment, posted.actor, posted.document, roles)
  }

  function Approve(t: Task, v: View, comment: nat, posted: Evidence, c: Command): Outcome
    requires posted.Posted? && c.ApproveRequirements?
  {
    if t.requirements.None? || c.requirements != t.requirements.value.number then Refuse(RevisionStale)
    else if t.requirements.value.questions then Refuse(QuestionsOpen)
    else if t.requirementApproval.Some? then Refuse(AlreadyApproved)
    else
      var roles := ApprovalRoles(t, v, c.start);
      if !HoldsRoles(v, posted.actor, roles) then Refuse(CommandForbidden)
      else if !StartAllowed(t, v, c.start) || !ModeAllowed(t, v, c.mode) then Refuse(OverrideForbidden)
      else Next(t.(startPolicy := Or(c.start, t.startPolicy), designMode := Or(c.mode, t.designMode),
                   requirementApproval := Some(ProofOf(comment, posted, roles)),
                   started := Or(c.start, t.startPolicy).OnApproval?))
  }

  function Begin(t: Task, v: View, comment: nat, posted: Evidence, c: Command): Outcome
    requires posted.Posted? && c.Start?
  {
    if ProofRefusal(v, t.requirementApproval).Some? then Refuse(ProofRefusal(v, t.requirementApproval).value)
    else if t.requirements.None? || c.requirements != t.requirements.value.number then Refuse(RevisionStale)
    else if t.started then Refuse(AlreadyStarted)
    else if !HoldsRoles(v, posted.actor, [Starter]) then Refuse(CommandForbidden)
    else if !ModeAllowed(t, v, c.mode) then Refuse(OverrideForbidden)
    else Next(t.(startApproval := Some(ProofOf(comment, posted, [Starter])), designMode := Or(c.mode, t.designMode),
                 started := true))
  }

  function AcceptDesign(t: Task, v: View, comment: nat, posted: Evidence, c: Command): Outcome
    requires posted.Posted? && c.ApproveDesign?
  {
    if BasisRefusal(t, v, false).Some? then Refuse(BasisRefusal(t, v, false).value)
    else if t.design.None? || c.design != t.design.value.number then Refuse(RevisionStale)
    else if t.design.value.questions then Refuse(QuestionsOpen)
    else if !t.designMode.Collaborative? then Refuse(DesignAutomatic)
    else if !HoldsRoles(v, posted.actor, [DesignApprover]) then Refuse(CommandForbidden)
    else Next(t.(designApproval := Some(ProofOf(comment, posted, [DesignApprover]))))
  }

  function Revise(t: Task, v: View, posted: Evidence, c: Command): Outcome
    requires posted.Posted? && c.Amend?
  {
    if !HoldsRoles(v, posted.actor, [Contributor]) then Refuse(CommandForbidden)
    else if t.requirements.None? || c.requirements != t.requirements.value.number then Refuse(RevisionStale)
    else Next(ResetScope(t.(amendments := t.amendments + [posted.document])))
  }

  function FirstRefusal(v: View, proofs: seq<Option<Proof>>): Option<Code> {
    if proofs == [] then None
    else if proofs[0].Some? && ProofRefusal(v, proofs[0]).Some? then ProofRefusal(v, proofs[0])
    else FirstRefusal(v, proofs[1..])
  }

  function Operate(t: Task, v: View, posted: Evidence, c: Command): Outcome
    requires posted.Posted? && (c.Stop? || c.Cancel? || c.Resume?)
  {
    if !HoldsRoles(v, posted.actor, [Operator]) then Refuse(CommandForbidden)
    else if c.Resume? then
      if !t.paused then Refuse(TaskNotPaused)
      else
        var refusal := FirstRefusal(v, [t.requirementApproval, t.startApproval, t.designApproval]);
        if refusal.Some? then Refuse(refusal.value) else Next(t.(paused := false, epoch := t.epoch + 1))
    else Next(t.(paused := c.Stop?, cancelRequested := c.Cancel? && Active(t), cancelled := c.Cancel? && !Active(t),
                 epoch := t.epoch + 1))
  }

  function Handle(t: Task, v: View, comment: nat, c: Command): Outcome {
    if CommentRefusal(v, comment).Some? then Refuse(CommentRefusal(v, comment).value)
    else
      var posted := v.comments[comment];
      var halting := c.Stop? || c.Cancel?;
      if StateRefusal(t, v, !halting).Some? then Refuse(StateRefusal(t, v, !halting).value)
      else if !halting && SourceRefusal(t, v).Some? then Refuse(SourceRefusal(t, v).value)
      else
        match c
        case ApproveRequirements(_, _, _) => Approve(t, v, comment, posted, c)
        case Start(_, _) => Begin(t, v, comment, posted, c)
        case ApproveDesign(_) => AcceptDesign(t, v, comment, posted, c)
        case Amend(_) => Revise(t, v, posted, c)
        case _ => Operate(t, v, posted, c)
  }

  /** Only these findings count as a revocation; any other failure to observe
      leaves the approvals as they are and refuses the event. */
  predicate Revokes(c: Code) {
    c.ApprovalRevoked? || c.CommandEdited? || c.CommandForbidden? || c.CommandActor?
  }

  predicate Revoked(v: View, proof: Option<Proof>) {
    proof.Some? && ProofRefusal(v, proof).Some? && Revokes(ProofRefusal(v, proof).value)
  }

  /** Why a proof in force can be neither confirmed nor found revoked. */
  function Undecided(v: View, proof: Option<Proof>): Option<Code> {
    if proof.Some? && ProofRefusal(v, proof).Some? && !Revokes(ProofRefusal(v, proof).value) then ProofRefusal(v, proof)
    else None
  }

  function FirstUndecided(v: View, t: Task): Option<Code> {
    if Undecided(v, t.requirementApproval).Some? then Undecided(v, t.requirementApproval)
    else if Undecided(v, t.startApproval).Some? then Undecided(v, t.startApproval)
    else Undecided(v, t.designApproval)
  }

  /** What a revocation takes down with it. */
  function Withdrawn(t: Task, requirement: bool, start: bool, design: bool): Task {
    if requirement then
      t.(requirementApproval := None, started := false, startApproval := None, designApproval := None, epoch := t.epoch + 1)
    else if start then t.(startApproval := None, started := false, designApproval := None, epoch := t.epoch + 1)
    else if design then t.(designApproval := None, epoch := t.epoch + 1)
    else t
  }

  function Reconcile(t: Task, v: View): Outcome {
    if StateRefusal(t, v, true).Some? then Refuse(StateRefusal(t, v, true).value)
    else if SourceRefusal(t, v).Some? then Refuse(SourceRefusal(t, v).value)
    else if FirstUndecided(v, t).Some? then Refuse(FirstUndecided(v, t).value)
    else
      var requirement, start, design :=
        Revoked(v, t.requirementApproval), Revoked(v, t.startApproval), Revoked(v, t.designApproval);
      Next(Withdrawn(t, requirement, start, design))
  }

  function Refresh(t: Task, v: View): Outcome {
    if StateRefusal(t, v, false).Some? then Refuse(StateRefusal(t, v, false).value)
    else if t.config == v.config then Next(t)
    else Next(ResetScope(t).(config := v.config, startPolicy := v.startPolicy, designMode := v.designMode))
  }

  /** Whether a command may be reserved now. */
  function GateRefusal(t: Task, v: View): Option<Code> {
    if StateRefusal(t, v, true).Some? then StateRefusal(t, v, true)
    else if Active(t) || t.paused || !t.status.Queued? || !t.phase.InImplementation? then Some(GateClosed)
    else BasisRefusal(t, v, true)
  }

  function Reserve(t: Task, v: View, run: string, plan: Digest): Outcome {
    if GateRefusal(t, v).Some? then Refuse(GateRefusal(t, v).value)
    else if t.requirements.None? || t.design.None? then Refuse(GateClosed)
    else Next(t.(execution := Some(Execution(run, Reserved, plan, t.epoch, t.requirements.value.number,
                                             t.design.value.number, t.config, NoReason, false))))
  }

  /** What was observed of a run is recorded, whatever the approvals are by now. */
  function RecordRun(t: Task, run: string, status: RunStatus, reason: Reason, stopped: bool): Outcome {
    if t.execution.None? || t.execution.value.run != run then Refuse(RunConflict)
    else Next(t.(execution := Some(t.execution.value.(status := status, reason := reason, stopped := stopped))))
  }

  function PrepareRepair(t: Task, v: View, run: string): Outcome {
    if StateRefusal(t, v, true).Some? then Refuse(StateRefusal(t, v, true).value)
    else if BasisRefusal(t, v, true).Some? then Refuse(BasisRefusal(t, v, true).value)
    else if t.paused || t.execution.None? || t.execution.value.run != run || !t.execution.value.status.Failed?
            || t.execution.value.epoch != t.epoch
            || !(t.execution.value.reason.CommandExit? || t.execution.value.reason.ReportsFailedOrEmpty?)
            || !t.execution.value.stopped then Refuse(RepairDenied)
    else Next(t.(execution := None))
  }

  /** Publication found its basis gone: every approval is withdrawn. */
  function Withdraw(t: Task): Outcome {
    Next(t.(requirementApproval := None, startApproval := None, designApproval := None, started := false, epoch := t.epoch + 1))
  }

  datatype Action =
    | Capturing
    | Normalizing(digest: Digest, questions: bool)
    | Proposing(digest: Digest, requirements: nat, questions: bool)
    | Commanding(comment: nat, command: Command)
    | Reconciling
    | Refreshing
    | Reserving(run: string, plan: Digest)
    | Recording(run: string, status: RunStatus, reason: Reason, stopped: bool)
    | Repairing(run: string)
    | Withdrawing
    | Noting

  /** Before settling. `Noting` stands for the agent's, the sessions' and the
      publisher's own records, which leave every field of this state alone. */
  function Reduced(t: Task, v: View, a: Action): Outcome {
    match a
    case Capturing => Capture(t, v)
    case Normalizing(digest, questions) => Normalize(t, v, digest, questions)
    case Proposing(digest, requirements, questions) => Propose(t, v, digest, requirements, questions)
    case Commanding(comment, command) => Handle(t, v, comment, command)
    case Reconciling => Reconcile(t, v)
    case Refreshing => Refresh(t, v)
    case Reserving(run, plan) => Reserve(t, v, run, plan)
    case Recording(run, status, reason, stopped) => RecordRun(t, run, status, reason, stopped)
    case Repairing(run) => PrepareRepair(t, v, run)
    case Withdrawing => Withdraw(t)
    case Noting => Next(t)
  }

  function Apply(t: Task, v: View, a: Action): Outcome {
    match Reduced(t, v, a)
    case Refuse(code) => Refuse(code)
    case Next(u) => Next(Settle(u))
  }
}
