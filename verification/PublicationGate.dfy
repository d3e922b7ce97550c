/** What a task's gate answers to a publisher, and what becomes of the publication. */
module PublicationGate {
  import opened Results
  import opened Workflow
  import L = WorkflowLaws
  import P = Publisher

  /** What the first run of a publication recorded of the task it publishes. */
  datatype Basis = Basis(source: Source, config: Digest, epoch: nat, requirements: Option<Requirements>, design: Option<Design>,
                         requirementApproval: Option<Proof>, startApproval: Option<Proof>, designApproval: Option<Proof>)

  function BasisOf(t: Task): Basis {
    Basis(t.source, t.config, t.epoch, t.requirements, t.design, t.requirementApproval, t.startApproval, t.designApproval)
  }

  /** The agent's work as the gate finds it: the source and policy it was defined on,
      whether it came to an end, whether files, review and checks belong together, and
      whether candidate and notes are those of the publication. */
  datatype Work = Work(source: Source, config: Digest, ready: bool, sameFiles: bool, reviewed: bool, checked: bool,
                       sameCandidate: bool, sameNotes: bool)

  /** The publisher's name for a refusal of the workflow. */
  function CodeOf(c: Code): P.Code {
    match c
    case PolicyChanged => P.RepositoryPolicyChanged
    case TaskTerminal => P.TaskTerminal
    case TaskCancelling => P.TaskCancelling
    case IssueClosed => P.IssueClosed
    case SourceChanged => P.SourceChanged
    case ApprovalRequired => P.ApprovalRequired
    case ApprovalRevoked => P.ApprovalRevoked
    case CommandForbidden => P.CommandForbidden
    case StartRequired => P.StartRequired
    case CommandEdited => P.OtherCode("COMMAND_EDITED")
    case CommandActor => P.OtherCode("COMMAND_ACTOR")
    case _ => P.OtherCode("OTHER")
  }

  /** The task is still to be worked on. */
  function TaskFinding(enabled: bool, t: Task, v: View, work: Work): Option<P.Code> {
    if !enabled then Some(P.RepositoryDisabled)
    else if StateRefusal(t, v, true).Some? then Some(CodeOf(StateRefusal(t, v, true).value))
    else if SourceRefusal(t, v).Some? then Some(CodeOf(SourceRefusal(t, v).value))
    else if t.paused then Some(P.AgentPaused)
    else if work.source != t.source then Some(P.SourceChanged)
    else if work.config != v.config then Some(P.RepositoryPolicyChanged)
    else None
  }

  /** The work is the one that was verified, reviewed and, from the second run on, the
      one already being published. */
  function WorkFinding(t: Task, work: Work, kept: Option<Basis>): Option<P.Code> {
    if t.design.None? || t.design.value.questions then Some(P.OtherCode("GATE_CLOSED"))
    else if !work.ready || Active(t) then Some(P.NotReady)
    else if !work.sameFiles then Some(P.WorkspaceChanged)
    else if !work.reviewed then Some(P.OtherCode("PUBLISH_REVIEW_REQUIRED"))
    else if !work.checked then Some(P.OtherCode("PUBLISH_CHECKS_REQUIRED"))
    else if kept.Some? && !work.sameCandidate then Some(P.WorkspaceChanged)
    else if kept.Some? && kept.value != BasisOf(t) then Some(P.BasisChanged)
    else if kept.Some? && !work.sameNotes then Some(P.OtherCode("PUBLISH_DOCUMENT_CHANGED"))
    else None
  }

  /** The gate's finding; none if it is open. */
  function Finding(enabled: bool, t: Task, v: View, work: Work, kept: Option<Basis>): Option<P.Code> {
    if TaskFinding(enabled, t, v, work).Some? then TaskFinding(enabled, t, v, work)
    else if BasisRefusal(t, v, true).Some? then Some(CodeOf(BasisRefusal(t, v, true).value))
    else WorkFinding(t, work, kept)
  }

  // ---- What opens the gate ----

  predicate InHand(enabled: bool, t: Task, v: View, work: Work) {
    enabled && L.Open(t, v) && L.Sourced(t, v) && !t.paused && work.source == t.source && work.config == v.config
  }

  predicate Presentable(t: Task, work: Work, kept: Option<Basis>) {
    && t.design.Some? && !t.design.value.questions
    && work.ready && !Active(t) && work.sameFiles && work.reviewed && work.checked
    && (kept.Some? ==> work.sameCandidate && kept.value == BasisOf(t) && work.sameNotes)
  }

  /** The gate is open exactly to finished work on a task in hand whose source, start
      and approvals stand. */
  lemma OpenExactly(enabled: bool, t: Task, v: View, work: Work, kept: Option<Basis>)
    ensures Finding(enabled, t, v, work, kept).None? <==>
              InHand(enabled, t, v, work) && L.BasisStands(t, v, true) && Presentable(t, work, kept)
  {
    hide StateRefusal, SourceRefusal, BasisRefusal, L.BasisStands, L.Open, L.Sourced, CodeOf;
    L.RefusalMeans(t, v);
    L.BasisMeans(t, v, true);
  }

  // ---- What ends a publication ----

  /** The comment is there, but cannot be looked at, is not a person's or was edited. */
  predicate Veiled(v: View, comment: nat) {
    && comment in v.comments && !v.comments[comment].Missing?
    && (v.comments[comment].Posted? ==> !v.comments[comment].human || v.comments[comment].edited)
  }

  predicate VeiledProof(v: View, proof: Option<Proof>) {
    proof.Some? && Veiled(v, proof.value.comment)
  }

  /** The first thing wrong with start and approvals is not just that the comment of
      an approval is veiled. */
  predicate BasisEnds(t: Task, v: View) {
    if !L.Stands(v, t.requirementApproval) then !VeiledProof(v, t.requirementApproval)
    else if !t.started then true
    else if t.startApproval.Some? && !L.Stands(v, t.startApproval) then !VeiledProof(v, t.startApproval)
    else !VeiledProof(v, t.designApproval)
  }

  /** The first thing wrong with finished work is that files, candidate or recorded
      basis are others. */
  predicate WorkEnds(t: Task, work: Work, kept: Option<Basis>) {
    && t.design.Some? && !t.design.value.questions && work.ready && !Active(t)
    && (|| !work.sameFiles
        || (work.reviewed && work.checked && kept.Some? && (!work.sameCandidate || kept.value != BasisOf(t))))
  }

  predicate GateEnds(enabled: bool, t: Task, v: View, work: Work, kept: Option<Basis>) {
    if !InHand(enabled, t, v, work) then true
    else if !L.BasisStands(t, v, true) then BasisEnds(t, v)
    else WorkEnds(t, work, kept)
  }

  predicate EndsPublication(c: P.Code) {
    P.RemoteMoved(c) || P.BasisGone(c)
  }

  lemma ProofEnds(v: View, proof: Option<Proof>)
    requires ProofRefusal(v, proof).Some?
    ensures EndsPublication(CodeOf(ProofRefusal(v, proof).value)) <==> !VeiledProof(v, proof)
  {
    hide HoldsRoles;
  }

  lemma TaskEnds(enabled: bool, t: Task, v: View, work: Work)
    ensures TaskFinding(enabled, t, v, work).None? <==> InHand(enabled, t, v, work)
    ensures TaskFinding(enabled, t, v, work).Some? ==> EndsPublication(TaskFinding(enabled, t, v, work).value)
  {
  }

  lemma BasisFinding(t: Task, v: View)
    requires L.Sourced(t, v) && BasisRefusal(t, v, true).Some?
    ensures !L.BasisStands(t, v, true)
    ensures EndsPublication(CodeOf(BasisRefusal(t, v, true).value)) <==> BasisEnds(t, v)
  {
    hide ProofRefusal, L.Standing, VeiledProof;
    L.BasisMeans(t, v, true);
    L.ProofMeans(v, t.requirementApproval);
    L.ProofMeans(v, t.startApproval);
    L.ProofMeans(v, t.designApproval);
    if ProofRefusal(v, t.requirementApproval).Some? {
      ProofEnds(v, t.requirementApproval);
    } else if t.startApproval.Some? && ProofRefusal(v, t.startApproval).Some? {
      ProofEnds(v, t.startApproval);
    } else if ProofRefusal(v, t.designApproval).Some? {
      ProofEnds(v, t.designApproval);
    }
  }

  lemma WorkFound(t: Task, work: Work, kept: Option<Basis>)
    requires WorkFinding(t, work, kept).Some?
    ensures EndsPublication(WorkFinding(t, work, kept).value) <==> WorkEnds(t, work, kept)
  {
  }

  /** Whatever the gate finds wrong ends the publication exactly if the task is no
      longer in hand, an approval or the start is gone, or the work is other work. */
  lemma FindingEnds(enabled: bool, t: Task, v: View, work: Work, kept: Option<Basis>)
    requires Finding(enabled, t, v, work, kept).Some?
    ensures EndsPublication(Finding(enabled, t, v, work, kept).value) <==> GateEnds(enabled, t, v, work, kept)
  {
    hide TaskFinding, WorkFinding, BasisRefusal, EndsPublication, CodeOf, BasisEnds, WorkEnds, L.BasisStands, L.Open, L.Sourced;
    TaskEnds(enabled, t, v, work);
    L.BasisMeans(t, v, true);
    if InHand(enabled, t, v, work) {
      if BasisRefusal(t, v, true).Some? {
        BasisFinding(t, v);
      } else {
        WorkFound(t, work, kept);
      }
    }
  }

  /** An approval in force whose comment is gone or, unedited, reads otherwise, or
      whose author is no longer in the list of one of its roles or may not write any
      more, ends the publication if those looked at before it stand. */
  lemma LostApprovalEnds(enabled: bool, t: Task, v: View, work: Work, kept: Option<Basis>, proof: Proof, role: Role)
    requires InHand(enabled, t, v, work) && t.started
    requires || t.requirementApproval == Some(proof)
             || (t.startApproval == Some(proof) && L.Stands(v, t.requirementApproval))
             || (t.designApproval == Some(proof) && t.designMode == Collaborative && L.Stands(v, t.requirementApproval)
                 && (t.startApproval.Some? ==> L.Stands(v, t.startApproval)))
    requires || proof.comment !in v.comments || v.comments[proof.comment].Missing?
             || (L.Speaks(v, proof.comment)
                 && var posted := v.comments[proof.comment];
                    || posted.document != proof.document || (role in proof.roles && posted.actor !in v.writers)
                    || (role in proof.roles && role != Contributor && !(role in v.allowed && posted.actor in v.allowed[role])))
    ensures var f := Finding(enabled, t, v, work, kept);
            f.Some? && EndsPublication(f.value)
  {
    hide Finding, InHand, EndsPublication, WorkEnds;
    OpenExactly(enabled, t, v, work, kept);
    FindingEnds(enabled, t, v, work, kept);
    assert !L.Stands(v, Some(proof));
  }

  /** An edited approval, or one whose comment is not a person's or cannot be looked
      at, does not end the publication: for the first such approval among those
      looked at the run is only blocked, and continues once the comment reads as
      approved again. */
  lemma VeiledApprovalOnlyBlocks(enabled: bool, t: Task, v: View, work: Work, kept: Option<Basis>)
    requires InHand(enabled, t, v, work)
    requires || VeiledProof(v, t.requirementApproval)
             || (VeiledProof(v, t.startApproval) && t.started && L.Stands(v, t.requirementApproval))
             || (VeiledProof(v, t.designApproval) && t.designMode == Collaborative && t.started
                 && L.Stands(v, t.requirementApproval) && (t.startApproval.Some? ==> L.Stands(v, t.startApproval)))
    ensures var f := Finding(enabled, t, v, work, kept);
            f.Some? && !EndsPublication(f.value)
  {
    hide Finding, InHand, EndsPublication, WorkEnds;
    OpenExactly(enabled, t, v, work, kept);
    FindingEnds(enabled, t, v, work, kept);
  }

  /** A run of a publication already begun, with nothing in the way but what the gate
      finds. It ends the publication for good exactly if the finding does, and then
      the publication's own check is marked. */
  method RunAtGate(p: P.PublicationCoordinator, enabled: bool, t: Task, v: View, work: Work, kept: Basis) returns (r: P.Ran)
    requires p.Valid() && p.record.Some? && !p.record.value.invalidated
    requires Finding(enabled, t, v, work, Some(kept)).Some?
    modifies p
    ensures p.Valid() && p.record.Some?
    ensures p.record.value.invalidated <==> GateEnds(enabled, t, v, work, Some(kept))
    ensures p.record.value.invalidated && P.Markable(old(p.record), old(p.remote)) ==> p.remote.check.MarkedCheck?
  {
    hide Finding, GateEnds, P.RemoteMoved, P.BasisGone;
    FindingEnds(enabled, t, v, work, Some(kept));
    ghost var failure;
    r, failure := p.Run([P.Fine, P.Fails(Finding(enabled, t, v, work, Some(kept)).value, false)]);
  }
}
