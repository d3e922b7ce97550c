/** What every history of one task keeps: how approvals depend on each other, what
    the cancellation epoch stamps, where an approval came from and that it never
    comes back. */
module Approvals {
  import opened Results
  import opened Workflow

  datatype World = World(task: Option<Task>, comments: set<nat>)

  datatype Event = Event(view: View, action: Action)

  /** The first event captures the Issue. The journal commits one event per
      comment identity, so no comment is handled twice. */
  ghost predicate Legal(w: World, e: Event) {
    if w.task.None? then e.action.Capturing?
    else
      && Apply(w.task.value, e.view, e.action).Next?
      && (e.action.Commanding? ==> e.action.comment !in w.comments)
  }

  function Step(w: World, e: Event): World {
    World(if w.task.None? then Some(Fresh(e.view))
          else if Apply(w.task.value, e.view, e.action).Next? then Some(Apply(w.task.value, e.view, e.action).task)
          else w.task,
          if e.action.Commanding? then w.comments + {e.action.comment} else w.comments)
  }

  function After(log: seq<Event>, n: nat): World
    requires n <= |log|
  {
    if n == 0 then World(None, {}) else Step(After(log, n - 1), log[n - 1])
  }

  /** Event `n` is lawful where it stands. */
  ghost predicate LegalAt(log: seq<Event>, n: nat)
    requires n < |log|
  {
    Legal(After(log, n), log[n])
  }

  ghost predicate LegalLog(log: seq<Event>) {
    forall n :: 0 <= n < |log| ==> LegalAt(log, n)
  }

  lemma StepAfter(log: seq<Event>, n: nat)
    requires LegalLog(log) && n < |log|
    ensures After(log, n + 1) == Step(After(log, n), log[n]) && Legal(After(log, n), log[n])
  {
    hide Legal, Step;
    assert LegalAt(log, n);
  }

  lemma {:induction false} SameAfter(log: seq<Event>, e: Event, n: nat)
    requires n <= |log|
    ensures After(log + [e], n) == After(log, n)
  {
    hide Step;
    if n > 0 {
      SameAfter(log, e, n - 1);
    }
  }

  lemma OneAfter(log: seq<Event>, n: nat)
    requires n < |log|
    ensures After(log, n + 1) == Step(After(log, n), log[n])
  {
    hide Step;
  }

  /** A lawful history and one lawful event more. */
  lemma LawfulNext(log: seq<Event>, e: Event)
    requires LegalLog(log) && Legal(After(log, |log|), e)
    ensures LegalLog(log + [e]) && After(log + [e], |log| + 1) == Step(After(log, |log|), e)
  {
    hide Step, Legal, After;
    var longer := log + [e];
    forall n | 0 <= n < |longer|
      ensures LegalAt(longer, n)
    {
      SameAfter(log, e, n);
      assert n < |log| ==> LegalAt(log, n);
    }
    SameAfter(log, e, |log|);
    OneAfter(longer, |log|);
  }

  lemma {:induction false} Captures(log: seq<Event>, n: nat)
    requires LegalLog(log) && 0 < n <= |log|
    ensures After(log, n).task.Some?
  {
    hide Legal, Apply, Fresh;
    if n > 1 {
      Captures(log, n - 1);
    }
  }

  /** The task after `n` events, once there is one. */
  function TaskAt(log: seq<Event>, n: nat): Task
    requires LegalLog(log) && 0 < n <= |log|
  {
    Captures(log, n);
    After(log, n).task.value
  }

  lemma SameTask(log: seq<Event>, e: Event, n: nat)
    requires LegalLog(log) && LegalLog(log + [e]) && 0 < n <= |log|
    ensures TaskAt(log + [e], n) == TaskAt(log, n)
  {
    hide After, LegalLog;
    SameAfter(log, e, n);
  }

  lemma TaskStep(log: seq<Event>, n: nat)
    requires LegalLog(log) && 0 < n < |log|
    ensures Apply(TaskAt(log, n), log[n].view, log[n].action) == Next(TaskAt(log, n + 1))
    ensures log[n].action.Commanding? ==> log[n].action.comment !in After(log, n).comments
    ensures After(log, n + 1).comments
         == After(log, n).comments + if log[n].action.Commanding? then {log[n].action.comment} else {}
  {
    hide Apply, Fresh, After, LegalLog;
    StepAfter(log, n);
    Captures(log, n);
  }

  lemma FirstTask(log: seq<Event>)
    requires LegalLog(log) && |log| > 0
    ensures TaskAt(log, 1) == Fresh(log[0].view) && After(log, 1).comments == {}
  {
    hide Apply, Fresh;
    StepAfter(log, 0);
    assert After(log, 0) == World(None, {});
  }

  // ---- Settling ----

  lemma SettleKeeps(t: Task)
    ensures var u := Settle(t);
            u == t.(phase := u.phase, status := u.status, cancelled := u.cancelled, cancelRequested := u.cancelRequested)
    ensures Settle(t).phase == PhaseOf(t) && PhaseOf(Settle(t)) == PhaseOf(t)
    ensures t.cancelled ==> Settle(t).cancelled
    ensures Settle(t).cancelRequested ==> t.cancelRequested && Active(t)
    ensures Settle(t).cancelled && !t.cancelled ==> t.cancelRequested && !Active(t)
  {
  }

  lemma SettleIdle(t: Task)
    requires !Active(t)
    ensures var u := Settle(t);
            !Active(u) && !u.cancelRequested && u.cancelled == (t.cancelled || t.cancelRequested)
            && u.phase == PhaseOf(u)
            && u.status == if u.cancelled then Cancelled else if u.paused then Paused
                           else if FailedHere(u) then FailedRun else IdleStatus(u)
  {
  }

  lemma SettleTwice(t: Task)
    ensures Settle(Settle(t)) == Settle(t)
  {
    if !Active(t) {
      hide PhaseOf, IdleStatus, FailedHere;
      SettleIdle(t);
    } else {
      hide IdleStatus, FailedHere, PhaseOf;
      SettleKeeps(t);
    }
  }

  // ---- How approvals depend on each other ----

  ghost predicate Ordered(t: Task) {
    && (t.startApproval.Some? ==> t.started)
    && (t.started ==> t.requirementApproval.Some?)
    && (t.requirementApproval.Some? ==> t.requirements.Some? && !t.requirements.value.questions)
    && (t.design.Some? ==> t.requirements.Some? && t.design.value.requirements == t.requirements.value.number)
    && (t.designApproval.Some? ==>
          t.started && t.designMode.Collaborative? && t.design.Some? && !t.design.value.questions)
  }

  ghost predicate Inv(t: Task) {
    Ordered(t) && Settle(t) == t && (t.cancelRequested ==> Active(t))
  }

  lemma OrderedCommand(t: Task, v: View, comment: nat, c: Command)
    requires Ordered(t) && Handle(t, v, comment, c).Next?
    ensures Ordered(Handle(t, v, comment, c).task)
  {
    hide StateRefusal, SourceRefusal, CommentRefusal, ProofRefusal, HoldsRoles, BasisRefusal, FirstRefusal, ProofOf, ApprovalRoles,
         StartAllowed, ModeAllowed;
    if c.Start? || c.ApproveDesign? {
      BasisStarted(t, v);
    }
  }

  lemma BasisStarted(t: Task, v: View)
    ensures BasisRefusal(t, v, false).None? ==> t.started && t.requirementApproval.Some?
    ensures ProofRefusal(v, t.requirementApproval).None? ==> t.requirementApproval.Some?
  {
    hide HoldsRoles, CommentRefusal, SourceRefusal;
  }

  lemma OrderedCapture(t: Task, v: View)
    requires Ordered(t) && Capture(t, v).Next?
    ensures Ordered(Capture(t, v).task)
  {
    hide StateRefusal, Active, SameSource, Captured, ResetScope;
    if !SameSource(t.source, v.issue) {
      ResetOrdered(t);
      CapturedOrdered(ResetScope(t).(amendments := []), v, true);
    } else {
      CapturedOrdered(t, v, false);
    }
  }

  lemma ResetOrdered(t: Task)
    ensures Ordered(ResetScope(t).(amendments := []))
  {
  }

  lemma CapturedOrdered(t: Task, v: View, changed: bool)
    requires Ordered(t)
    ensures Ordered(Captured(t, v, changed))
  {
    hide Active;
  }

  lemma OrderedReconcile(t: Task, v: View)
    requires Ordered(t) && Reconcile(t, v).Next?
    ensures Ordered(Reconcile(t, v).task)
  {
    hide StateRefusal, SourceRefusal, Revoked;
  }

  lemma OrderedReduced(t: Task, v: View, a: Action)
    requires Ordered(t) && Reduced(t, v, a).Next?
    ensures Ordered(Reduced(t, v, a).task)
  {
    hide StateRefusal, SourceRefusal, ProofRefusal, BasisRefusal, GateRefusal, Handle, Capture, Reconcile;
    match a {
      case Capturing => OrderedCapture(t, v);
      case Reconciling => OrderedReconcile(t, v);
      case Commanding(comment, command) => OrderedCommand(t, v, comment, command);
      case Proposing(digest, requirements, questions) => BasisStarted(t, v);
      case _ =>
    }
  }

  lemma OrderedStep(t: Task, v: View, a: Action)
    requires Ordered(t) && Apply(t, v, a).Next?
    ensures Ordered(Apply(t, v, a).task)
  {
    hide Reduced, Settle;
    OrderedReduced(t, v, a);
    SettleKeeps(Reduced(t, v, a).task);
  }

  lemma InvStep(t: Task, v: View, a: Action)
    requires Inv(t) && Apply(t, v, a).Next?
    ensures Inv(Apply(t, v, a).task)
  {
    hide Ordered, Reduced, Settle, Active;
    OrderedStep(t, v, a);
    var u := Reduced(t, v, a).task;
    SettleKeeps(u);
    SettleTwice(u);
    ActiveSettled(u);
  }

  lemma ActiveSettled(t: Task)
    ensures Active(Settle(t)) == Active(t)
  {
  }

  lemma InvFresh(v: View)
    ensures Inv(Fresh(v))
  {
  }

  /** In every reachable state: a start approval implies started, started implies an
      approval of question-free requirements, a design names the current
      requirements, a design approval implies all of that with a question-free
      design in collaborative mode, and a requested cancellation has a command to
      wait for. */
  lemma {:induction false} InvAlways(log: seq<Event>, n: nat)
    requires LegalLog(log) && 0 < n <= |log|
    ensures Inv(TaskAt(log, n))
  {
    hide Inv, Apply, Fresh, TaskAt, LegalLog;
    if n == 1 {
      FirstTask(log);
      InvFresh(log[0].view);
    } else {
      InvAlways(log, n - 1);
      TaskStep(log, n - 1);
      InvStep(TaskAt(log, n - 1), log[n - 1].view, log[n - 1].action);
    }
  }

  // ---- Where an approval came from ----

  datatype Gate = RequirementGate | StartGate | DesignGate

  function Held(t: Task, g: Gate): Option<Proof> {
    match g
    case RequirementGate => t.requirementApproval
    case StartGate => t.startApproval
    case DesignGate => t.designApproval
  }

  predicate GrantsAt(a: Action, g: Gate) {
    a.Commanding? &&
    match g
    case RequirementGate => a.command.ApproveRequirements?
    case StartGate => a.command.Start?
    case DesignGate => a.command.ApproveDesign?
  }

  predicate Grants(a: Action) {
    GrantsAt(a, RequirementGate) || GrantsAt(a, StartGate) || GrantsAt(a, DesignGate)
  }

  function RoleAt(g: Gate): Role {
    match g
    case RequirementGate => RequirementApprover
    case StartGate => Starter
    case DesignGate => DesignApprover
  }

  /** The event is a person's unedited comment with the command, and the person held
      every role the proof names, the gate's own role among them. */
  predicate GrantedBy(e: Event, g: Gate, p: Proof) {
    && GrantsAt(e.action, g) && e.action.comment == p.comment
    && CommentRefusal(e.view, p.comment).None?
    && e.view.comments[p.comment] == Posted(p.actor, true, false, p.document)
    && RoleAt(g) in p.roles && HoldsRoles(e.view, p.actor, p.roles)
  }

  lemma HandledComment(t: Task, v: View, comment: nat, c: Command, g: Gate)
    requires Handle(t, v, comment, c).Next?
    ensures var u := Handle(t, v, comment, c).task;
            || Held(u, g) == Held(t, g) || Held(u, g).None?
            || GrantedBy(Event(v, Commanding(comment, c)), g, Held(u, g).value)
  {
    hide StateRefusal, SourceRefusal, ProofRefusal, HoldsRoles, BasisRefusal, FirstRefusal, StartAllowed, ModeAllowed;
  }

  lemma HeldReduced(t: Task, v: View, a: Action, g: Gate)
    requires Reduced(t, v, a).Next?
    ensures var u := Reduced(t, v, a).task;
            || Held(u, g) == Held(t, g) || Held(u, g).None?
            || GrantedBy(Event(v, a), g, Held(u, g).value)
  {
    hide StateRefusal, SourceRefusal, ProofRefusal, BasisRefusal, GateRefusal, Handle, Revoked, Active, SameSource, GrantedBy;
    match a {
      case Commanding(comment, command) => HandledComment(t, v, comment, command, g);
      case _ =>
    }
  }

  lemma HeldStep(t: Task, v: View, a: Action, g: Gate)
    requires Apply(t, v, a).Next?
    ensures var u := Apply(t, v, a).task;
            || Held(u, g) == Held(t, g) || Held(u, g).None?
            || GrantedBy(Event(v, a), g, Held(u, g).value)
  {
    hide Reduced, Settle, GrantedBy;
    HeldReduced(t, v, a, g);
    SettleKeeps(Reduced(t, v, a).task);
  }

  /** Every approval in force was granted by one committed comment of a person who
      held the required roles when it was committed. */
  lemma {:induction false} ApprovalGranted(log: seq<Event>, n: nat, g: Gate)
    requires LegalLog(log) && 0 < n <= |log| && Held(TaskAt(log, n), g).Some?
    ensures exists k :: 0 <= k < n && GrantedBy(log[k], g, Held(TaskAt(log, n), g).value)
  {
    hide Apply, Fresh, TaskAt, LegalLog, GrantedBy;
    if n == 1 {
      FirstTask(log);
      NothingHeld(log[0].view, g);
    } else {
      TaskStep(log, n - 1);
      HeldStep(TaskAt(log, n - 1), log[n - 1].view, log[n - 1].action, g);
      if Held(TaskAt(log, n), g) == Held(TaskAt(log, n - 1), g) {
        ApprovalGranted(log, n - 1, g);
      } else {
        assert GrantedBy(Event(log[n - 1].view, log[n - 1].action), g, Held(TaskAt(log, n), g).value);
        assert log[n - 1] == Event(log[n - 1].view, log[n - 1].action);
      }
    }
  }

  lemma NothingHeld(v: View, g: Gate)
    ensures Held(Fresh(v), g).None?
  {
  }

  lemma {:induction false} CommentsGrow(log: seq<Event>, i: nat, n: nat)
    requires LegalLog(log) && 0 < i <= n <= |log|
    ensures After(log, i).comments <= After(log, n).comments
  {
    hide After, Apply, LegalLog;
    if i < n {
      CommentsGrow(log, i, n - 1);
      TaskStep(log, n - 1);
    }
  }

  lemma {:induction false} CommentCommitted(log: seq<Event>, n: nat, g: Gate)
    requires LegalLog(log) && 0 < n <= |log| && Held(TaskAt(log, n), g).Some?
    ensures Held(TaskAt(log, n), g).value.comment in After(log, n).comments
  {
    hide After, Apply, Fresh, TaskAt, LegalLog;
    if n == 1 {
      FirstTask(log);
      NothingHeld(log[0].view, g);
    } else {
      TaskStep(log, n - 1);
      HeldStep(TaskAt(log, n - 1), log[n - 1].view, log[n - 1].action, g);
      if Held(TaskAt(log, n), g) == Held(TaskAt(log, n - 1), g) {
        CommentCommitted(log, n - 1, g);
      }
    }
  }

  /** An approval that was lost never comes back, however often its comment is
      delivered, restored or replayed. */
  lemma {:induction false} NeverGrantedAgain(log: seq<Event>, i: nat, j: nat, n: nat, g: Gate)
    requires LegalLog(log) && 0 < i < j <= n <= |log|
    requires Held(TaskAt(log, i), g).Some? && Held(TaskAt(log, j), g) != Held(TaskAt(log, i), g)
    ensures Held(TaskAt(log, n), g) != Held(TaskAt(log, i), g)
  {
    hide After, Apply, Fresh, TaskAt, LegalLog;
    if j < n {
      NeverGrantedAgain(log, i, j, n - 1, g);
      TaskStep(log, n - 1);
      HeldStep(TaskAt(log, n - 1), log[n - 1].view, log[n - 1].action, g);
      CommentCommitted(log, i, g);
      CommentsGrow(log, i, n - 1);
    }
  }

  // ---- What the epoch stamps ----

  /** Everything work is based on. */
  datatype Basis = Basis(source: Source, config: Digest, requirements: Option<Requirements>, design: Option<Design>,
                         requirementApproval: Option<Proof>, startApproval: Option<Proof>, designApproval: Option<Proof>,
                         started: bool, paused: bool, startPolicy: StartPolicy, designMode: DesignMode, amendments: seq<Digest>)

  function BasisOf(t: Task): Basis {
    Basis(t.source, t.config, t.requirements, t.design, t.requirementApproval, t.startApproval, t.designApproval,
          t.started, t.paused, t.startPolicy, t.designMode, t.amendments)
  }

  /** What no command grants. */
  predicate SameScope(a: Basis, b: Basis) {
    && a.source == b.source && a.config == b.config && a.requirements == b.requirements && a.design == b.design
    && a.paused == b.paused && a.amendments == b.amendments
  }

  /** Approval only grew. */
  predicate Grew(a: Basis, b: Basis) {
    && (a.requirementApproval.Some? ==> b.requirementApproval == a.requirementApproval)
    && (a.started ==> b.started && b.startApproval == a.startApproval
                      && b.startPolicy == a.startPolicy && b.designMode == a.designMode)
    && (a.designApproval.Some? ==> b.designApproval.Some?)
  }

  /** A grant left its mark: on a gate that was closed, or by its own comment. */
  predicate Marked(a: Basis, comments: set<nat>, b: Basis) {
    || (a.requirementApproval.None? && b.requirementApproval.Some?)
    || (!a.started && b.started)
    || (b.designApproval.Some? && b.designApproval.value.comment !in comments)
  }

  lemma EpochOfCommand(t: Task, v: View, comment: nat, c: Command)
    requires Ordered(t) && Handle(t, v, comment, c).Next?
    ensures var u := Handle(t, v, comment, c).task;
            if Grants(Commanding(comment, c)) then
              && u.epoch == t.epoch && SameScope(BasisOf(t), BasisOf(u)) && Grew(BasisOf(t), BasisOf(u))
              && forall comments: set<nat> :: comment !in comments ==> Marked(BasisOf(t), comments, BasisOf(u))
            else u.epoch == t.epoch + 1
  {
    hide StateRefusal, SourceRefusal, CommentRefusal, HoldsRoles, BasisRefusal, ProofRefusal, FirstRefusal, ApprovalRoles,
         StartAllowed, ModeAllowed;
  }

  /** What one accepted event does to the epoch and to what it stamps. */
  predicate Stamps(t: Task, a: Action, u: Task) {
    && u.epoch >= t.epoch
    && (Grants(a) ==>
          && u.epoch == t.epoch && SameScope(BasisOf(t), BasisOf(u)) && Grew(BasisOf(t), BasisOf(u)))
    && (!Grants(a) && u.epoch == t.epoch ==> BasisOf(u) == BasisOf(t))
  }

  predicate MarkedBy(t: Task, a: Action, u: Task, comments: set<nat>) {
    Grants(a) && a.comment !in comments ==> Marked(BasisOf(t), comments, BasisOf(u))
  }

  lemma EpochReduced(t: Task, v: View, a: Action, comments: set<nat>)
    requires Ordered(t) && Reduced(t, v, a).Next?
    ensures Stamps(t, a, Reduced(t, v, a).task) && MarkedBy(t, a, Reduced(t, v, a).task, comments)
  {
    hide StateRefusal, SourceRefusal, ProofRefusal, BasisRefusal, GateRefusal, Handle, Revoked, Active, SameSource,
         SameScope, Grew, Marked, Ordered, ResetScope, Captured, Reconcile;
    match a {
      case Commanding(comment, command) => EpochOfCommand(t, v, comment, command);
      case Capturing => EpochOfCapture(t, v);
      case Normalizing(_, _) => assert ResetScope(t).epoch == t.epoch + 1 by { ResetMoves(t); }
      case Refreshing => ResetMoves(t);
      case Reconciling => EpochOfReconcile(t, v);
      case _ =>
    }
  }

  lemma ResetMoves(t: Task)
    ensures ResetScope(t).epoch == t.epoch + 1
  {
  }

  lemma EpochOfWithdrawn(t: Task, requirement: bool, start: bool, design: bool)
    ensures var u := Withdrawn(t, requirement, start, design);
            u.epoch >= t.epoch && (u.epoch == t.epoch ==> u == t)
  {
  }

  lemma EpochOfReconcile(t: Task, v: View)
    requires Reconcile(t, v).Next?
    ensures var u := Reconcile(t, v).task;
            u.epoch >= t.epoch && (u.epoch == t.epoch ==> BasisOf(u) == BasisOf(t))
  {
    hide StateRefusal, SourceRefusal, Revoked, Withdrawn;
    EpochOfWithdrawn(t, Revoked(v, t.requirementApproval), Revoked(v, t.startApproval), Revoked(v, t.designApproval));
  }

  lemma EpochOfCaptured(t: Task, v: View)
    ensures Captured(t, v, false).epoch == t.epoch && BasisOf(Captured(t, v, false)) == BasisOf(t)
    ensures Captured(t, v, true).epoch == t.epoch
  {
    hide Active;
  }

  lemma EpochOfCapture(t: Task, v: View)
    requires Capture(t, v).Next?
    ensures var u := Capture(t, v).task;
            u.epoch >= t.epoch && (u.epoch == t.epoch ==> BasisOf(u) == BasisOf(t))
  {
    hide StateRefusal, SameSource, Captured, ResetScope, BasisOf;
    if SameSource(t.source, v.issue) {
      EpochOfCaptured(t, v);
    } else {
      ResetMoves(t);
      EpochOfCaptured(ResetScope(t).(amendments := []), v);
    }
  }

  lemma EpochStep(t: Task, v: View, a: Action, comments: set<nat>)
    requires Ordered(t) && Apply(t, v, a).Next?
    ensures Stamps(t, a, Apply(t, v, a).task) && MarkedBy(t, a, Apply(t, v, a).task, comments)
  {
    hide Reduced, Settle, Ordered, Grants, SameScope, Grew, Marked;
    EpochReduced(t, v, a, comments);
    SettleKeeps(Reduced(t, v, a).task);
  }

  /** The epoch never decreases. */
  lemma {:induction false} EpochGrows(log: seq<Event>, i: nat, n: nat)
    requires LegalLog(log) && 0 < i <= n <= |log|
    ensures TaskAt(log, i).epoch <= TaskAt(log, n).epoch
  {
    hide Apply, Fresh, TaskAt, LegalLog, Settle, Ordered;
    if i < n {
      EpochGrows(log, i, n - 1);
      InvAlways(log, n - 1);
      TaskStep(log, n - 1);
      EpochStep(TaskAt(log, n - 1), log[n - 1].view, log[n - 1].action, {});
    }
  }

  predicate GrantedBetween(log: seq<Event>, i: nat, n: nat)
    requires n <= |log|
  {
    exists k :: i <= k < n && Grants(log[k].action)
  }

  lemma GrewTwice(a: Basis, b: Basis, c: Basis)
    requires Grew(a, b) && Grew(b, c)
    ensures Grew(a, c)
  {
  }

  lemma NoChange(a: Basis)
    ensures Grew(a, a) && SameScope(a, a)
  {
  }

  /** Over a stretch of one epoch the scope is the same, approval only grows, and
      it grew exactly if a grant was committed. */
  lemma {:induction false} OneEpoch(log: seq<Event>, i: nat, n: nat)
    requires LegalLog(log) && 0 < i <= n <= |log| && TaskAt(log, i).epoch == TaskAt(log, n).epoch
    ensures var a, b := BasisOf(TaskAt(log, i)), BasisOf(TaskAt(log, n));
            && SameScope(a, b) && Grew(a, b)
            && (if GrantedBetween(log, i, n) then Marked(a, After(log, i).comments, b) else a == b)
  {
    hide Apply, Fresh, TaskAt, LegalLog, After, Settle, Ordered, SameScope, Grew, Marked, Grants, BasisOf;
    if i == n {
      NoChange(BasisOf(TaskAt(log, i)));
    } else {
      OneEpochStep(log, i, n);
    }
  }

  lemma {:induction false} OneEpochStep(log: seq<Event>, i: nat, n: nat)
    requires LegalLog(log) && 0 < i < n <= |log| && TaskAt(log, i).epoch == TaskAt(log, n).epoch
    ensures var a, b := BasisOf(TaskAt(log, i)), BasisOf(TaskAt(log, n));
            && SameScope(a, b) && Grew(a, b)
            && (if GrantedBetween(log, i, n) then Marked(a, After(log, i).comments, b) else a == b)
    decreases n, 0
  {
    hide Apply, Fresh, TaskAt, LegalLog, After, Settle, Ordered, SameScope, Grew, Marked, Grants, BasisOf;
    var a, m, b := BasisOf(TaskAt(log, i)), BasisOf(TaskAt(log, n - 1)), BasisOf(TaskAt(log, n));
    EpochGrows(log, i, n - 1);
    InvAlways(log, n - 1);
    TaskStep(log, n - 1);
    EpochStep(TaskAt(log, n - 1), log[n - 1].view, log[n - 1].action, After(log, i).comments);
    OneEpochBefore(log, i, n - 1);
    CommentsGrow(log, i, n - 1);
    if Grants(log[n - 1].action) {
      assert log[n - 1].action.comment !in After(log, i).comments by { GrantIsCommand(log[n - 1].action); }
      GrewTwice(a, m, b);
      SameScopeTwice(a, m, b);
      MarkOfGrant(a, m, b, After(log, i).comments);
      assert GrantedBetween(log, i, n);
    } else {
      assert b == m;
      assert GrantedBetween(log, i, n) <==> GrantedBetween(log, i, n - 1);
    }
  }

  lemma GrantIsCommand(a: Action)
    requires Grants(a)
    ensures a.Commanding?
  {
  }

  lemma SameScopeTwice(a: Basis, b: Basis, c: Basis)
    requires SameScope(a, b) && SameScope(b, c)
    ensures SameScope(a, c)
  {
  }

  lemma MarkOfGrant(a: Basis, m: Basis, b: Basis, comments: set<nat>)
    requires Grew(a, m) && Grew(m, b) && Marked(m, comments, b)
    ensures Marked(a, comments, b)
  {
  }

  lemma {:induction false} OneEpochBefore(log: seq<Event>, i: nat, n: nat)
    requires LegalLog(log) && 0 < i <= n <= |log| && TaskAt(log, i).epoch == TaskAt(log, n).epoch
    ensures var a, b := BasisOf(TaskAt(log, i)), BasisOf(TaskAt(log, n));
            && SameScope(a, b) && Grew(a, b)
            && (if GrantedBetween(log, i, n) then Marked(a, After(log, i).comments, b) else a == b)
    decreases n, 1
  {
    hide Apply, Fresh, TaskAt, LegalLog, After, Settle, Ordered, SameScope, Grew, Marked, Grants, BasisOf;
    if i == n {
      NoChange(BasisOf(TaskAt(log, i)));
    } else {
      OneEpochStep(log, i, n);
    }
  }

  lemma MarkedDiffers(a: Basis, comments: set<nat>, b: Basis)
    requires Marked(a, comments, b) && (a.designApproval.Some? ==> a.designApproval.value.comment in comments)
    ensures a != b
  {
  }

  /** What the epoch stamps, exactly. Two states of one history with equal epochs
      agree on source, configuration, requirements, design, pause and amendments;
      and they agree on approvals, start and the two policies as well if and only
      if no approval or start command was committed between them. */
  lemma EpochStamp(log: seq<Event>, i: nat, j: nat)
    requires LegalLog(log) && 0 < i <= j <= |log| && TaskAt(log, i).epoch == TaskAt(log, j).epoch
    ensures SameScope(BasisOf(TaskAt(log, i)), BasisOf(TaskAt(log, j)))
    ensures BasisOf(TaskAt(log, i)) == BasisOf(TaskAt(log, j)) <==> !GrantedBetween(log, i, j)
  {
    hide Apply, Fresh, TaskAt, LegalLog, After, SameScope, Grew, Marked, Grants;
    OneEpoch(log, i, j);
    if GrantedBetween(log, i, j) {
      var a, b := BasisOf(TaskAt(log, i)), BasisOf(TaskAt(log, j));
      if a.designApproval.Some? {
        CommentCommitted(log, i, DesignGate);
      }
      MarkedDiffers(a, After(log, i).comments, b);
    }
  }

  /** From a started state only the design approval can differ at the same epoch. */
  lemma EpochStampStarted(log: seq<Event>, i: nat, j: nat)
    requires LegalLog(log) && 0 < i <= j <= |log| && TaskAt(log, i).epoch == TaskAt(log, j).epoch
    requires TaskAt(log, i).started
    ensures BasisOf(TaskAt(log, j)) == BasisOf(TaskAt(log, i)).(designApproval := TaskAt(log, j).designApproval)
  {
    hide Apply, Fresh, TaskAt, LegalLog, After, Marked, Grants, Settle;
    OneEpoch(log, i, j);
    InvAlways(log, i);
  }

  const EXAMPLE_VIEW := View(Source("content", true, "1"), map[7 := Posted(5, true, false, "comment")], {5},
                             map[RequirementApprover := {5}], "config", Explicit, Automatic, {}, {})

  const EXAMPLE := [Event(EXAMPLE_VIEW, Capturing), Event(EXAMPLE_VIEW, Normalizing("document", false)),
                    Event(EXAMPLE_VIEW, Commanding(7, ApproveRequirements(1, None, None)))]

  const CAPTURED := Task("config", EXAMPLE_VIEW.issue, 1, EXAMPLE_VIEW.issue, 0, 0, [], None, None, false, None, None, None,
                         false, false, false, 1, Explicit, Automatic, None, InRequirements, Queued)

  const NORMALIZED := CAPTURED.(epoch := 2, requirementsCount := 1, phase := AtRequirementGate, status := WaitingHuman,
                                requirements := Some(Requirements(1, "document", EXAMPLE_VIEW.issue, [], false)))

  const APPROVED := NORMALIZED.(requirementApproval := Some(Proof(7, 5, "comment", [RequirementApprover])))

  lemma ExampleCaptured()
    ensures Fresh(EXAMPLE_VIEW) == CAPTURED
  {
  }

  lemma ExampleNormalized()
    ensures Apply(CAPTURED, EXAMPLE_VIEW, Normalizing("document", false)) == Next(NORMALIZED)
  {
  }

  lemma ExampleApproved()
    ensures Apply(NORMALIZED, EXAMPLE_VIEW, Commanding(7, ApproveRequirements(1, None, None))) == Next(APPROVED)
  {
    var posted := EXAMPLE_VIEW.comments[7];
    assert ApprovalRoles(NORMALIZED, EXAMPLE_VIEW, None) == [RequirementApprover];
    assert RoleRefusal(EXAMPLE_VIEW, 5, RequirementApprover).None?;
    assert HoldsRoles(EXAMPLE_VIEW, posted.actor, [RequirementApprover]);
  }

  /** So the epoch alone is no stamp of everything: here requirements are approved
      between two states with the same epoch. */
  lemma EpochIsNoFullStamp()
    ensures LegalLog(EXAMPLE)
    ensures TaskAt(EXAMPLE, 2).epoch == TaskAt(EXAMPLE, 3).epoch
    ensures TaskAt(EXAMPLE, 2).requirementApproval != TaskAt(EXAMPLE, 3).requirementApproval
  {
    hide Apply, Fresh;
    ExampleCaptured();
    ExampleNormalized();
    ExampleApproved();
    assert After(EXAMPLE, 0) == World(None, {});
    assert After(EXAMPLE, 1) == World(Some(CAPTURED), {});
    assert After(EXAMPLE, 2) == World(Some(NORMALIZED), {});
    assert After(EXAMPLE, 3) == World(Some(APPROVED), {7});
  }

  // ---- Cancellation ----

  /** A record that arrives for a run already ended, and revives it. */
  predicate Late(t: Task, a: Action) {
    a.Recording? && !Active(t) && IsActive(a.status)
  }

  lemma CancelledStep(t: Task, v: View, a: Action)
    requires Apply(t, v, a).Next? && t.cancelled
    ensures Apply(t, v, a).task.cancelled
  {
    hide SourceRefusal, ProofRefusal, BasisRefusal, HoldsRoles, Revoked, Active, SameSource, Settle, CommentRefusal,
         Approve, Begin, AcceptDesign, Revise, Operate;
    SettleKeeps(Reduced(t, v, a).task);
  }

  /** A cancelled task stays cancelled. */
  lemma {:induction false} CancelledForever(log: seq<Event>, i: nat, n: nat)
    requires LegalLog(log) && 0 < i <= n <= |log| && TaskAt(log, i).cancelled
    ensures TaskAt(log, n).cancelled
  {
    hide Apply, Fresh, TaskAt, LegalLog;
    if i < n {
      CancelledForever(log, i, n - 1);
      TaskStep(log, n - 1);
      CancelledStep(TaskAt(log, n - 1), log[n - 1].view, log[n - 1].action);
    }
  }

  predicate CancelledRuns(t: Task) {
    t.cancelled && Active(t)
  }

  lemma ReducedCancelled(t: Task, v: View, a: Action)
    requires Reduced(t, v, a).Next? && !CancelledRuns(t)
    ensures CancelledRuns(Reduced(t, v, a).task) <==> t.cancelled && Late(t, a)
  {
    hide SourceRefusal, ProofRefusal, BasisRefusal, HoldsRoles, Revoked, SameSource, CommentRefusal, Handle;
    if a.Commanding? {
      CommandKeepsRun(t, v, a.comment, a.command);
    }
  }

  lemma CommandKeepsRun(t: Task, v: View, comment: nat, c: Command)
    requires Handle(t, v, comment, c).Next?
    ensures Handle(t, v, comment, c).task.execution == t.execution && !t.cancelled
    ensures Handle(t, v, comment, c).task.cancelled ==> !Active(t)
  {
    hide SourceRefusal, CommentRefusal, HoldsRoles, BasisRefusal, ProofRefusal, FirstRefusal, ApprovalRoles,
         StartAllowed, ModeAllowed;
  }

  /** A cancelled task comes to have an active command exactly if the record of an
      already ended run revives it. */
  lemma CancelledRunsExactly(t: Task, v: View, a: Action)
    requires Inv(t) && Apply(t, v, a).Next? && !CancelledRuns(t)
    ensures CancelledRuns(Apply(t, v, a).task) <==> t.cancelled && Late(t, a)
  {
    hide Reduced, Ordered, Settle, Active;
    var u := Reduced(t, v, a).task;
    ReducedCancelled(t, v, a);
    SettleKeeps(u);
    ActiveSettled(u);
  }

  predicate NoLate(log: seq<Event>, i: nat, n: nat)
    requires LegalLog(log) && 0 < i <= n <= |log|
  {
    forall k :: i <= k < n ==> !Late(TaskAt(log, k), log[k].action)
  }

  /** Without such records, no cancelled task ever has an active command. */
  lemma {:induction false} CancelledIsIdle(log: seq<Event>, n: nat)
    requires LegalLog(log) && 0 < n <= |log| && NoLate(log, 1, n)
    ensures !CancelledRuns(TaskAt(log, n))
  {
    hide Apply, Fresh, TaskAt, LegalLog, Late, CancelledRuns, Inv;
    if n == 1 {
      FirstTask(log);
      assert !CancelledRuns(Fresh(log[0].view)) by { FreshIsIdle(log[0].view); }
    } else {
      CancelledIsIdle(log, n - 1);
      InvAlways(log, n - 1);
      TaskStep(log, n - 1);
      CancelledRunsExactly(TaskAt(log, n - 1), log[n - 1].view, log[n - 1].action);
    }
  }

  lemma FreshIsIdle(v: View)
    ensures !CancelledRuns(Fresh(v))
  {
  }

  // ---- A failed run holds the gate ----

  predicate Ended(t: Task) {
    t.execution.Some? && (t.execution.value.status.Failed? || t.execution.value.status.Stale?)
  }

  predicate StuckOn(t: Task, run: string) {
    Ended(t) && t.execution.value.run == run && t.execution.value.epoch == t.epoch
  }

  lemma GateHeld(t: Task, v: View, run: string, other: string, plan: Digest)
    requires Inv(t) && StuckOn(t, run)
    ensures Apply(t, v, Reserving(other, plan)).Refuse?
  {
    hide StateRefusal, BasisRefusal, Ordered;
  }

  lemma StillHeld(t: Task, v: View, a: Action, run: string)
    requires Inv(t) && StuckOn(t, run) && Apply(t, v, a).Next?
    requires Apply(t, v, a).task.epoch == t.epoch && !a.Repairing? && !a.Recording?
    ensures StuckOn(Apply(t, v, a).task, run)
  {
    hide SourceRefusal, ProofRefusal, BasisRefusal, HoldsRoles, Revoked, SameSource, CommentRefusal, Handle, Settle, Inv, Reserve;
    SettleKeeps(Reduced(t, v, a).task);
    if a.Commanding? {
      CommandKeepsRun(t, v, a.comment, a.command);
    } else if a.Reserving? {
      GateHeld(t, v, run, a.run, a.plan);
    }
  }

  /** A run that failed or went stale under the present epoch refuses every further
      reservation until the epoch moves, the run is released for repair, or a late
      record rewrites it. */
  lemma {:induction false} FailedRunBlocks(log: seq<Event>, i: nat, n: nat, run: string)
    requires LegalLog(log) && 0 < i <= n < |log| && StuckOn(TaskAt(log, i), run)
    requires TaskAt(log, n).epoch == TaskAt(log, i).epoch
    requires forall k :: i <= k < n ==> !log[k].action.Repairing? && !log[k].action.Recording?
    ensures StuckOn(TaskAt(log, n), run) && !log[n].action.Reserving?
  {
    hide Apply, Fresh, TaskAt, LegalLog, StuckOn, Inv;
    if i < n {
      EpochGrows(log, i, n - 1);
      EpochGrows(log, n - 1, n);
      FailedRunBlocks(log, i, n - 1, run);
      InvAlways(log, n - 1);
      TaskStep(log, n - 1);
      StillHeld(TaskAt(log, n - 1), log[n - 1].view, log[n - 1].action, run);
    }
    InvAlways(log, n);
    TaskStep(log, n);
    if log[n].action.Reserving? {
      GateHeld(TaskAt(log, n), log[n].view, run, log[n].action.run, log[n].action.plan);
    }
  }
}
