/** When a replay of a stored delivery settles it: what can keep it from settling, a
    run in which it is kept, and that nothing else does. */
module ReplayCompletion {
  import opened Results
  import opened TaskJournal
  import opened EventProcessor
  import A = Approvals
  import J = Journal
  import Laws = WorkflowLaws
  import W = Workflow

  // ---- A replay that cannot settle ----

  lemma MarkedClashes(s: Setup, w: World, d: Stamp, r: Receipt, f: Facts, g: Facts)
    requires Good(s, w) && AboutTask(s, r) && SourceIsIn(s, w, d, r, f) && g.look.Seen?
    requires s.h(J.OfValue(SourceEvent(s.h, f.source.issue))) != s.h(J.OfValue(SourceEvent(s.h, g.source.issue)))
    ensures SourceChanged(s, w, d, r, g)
  {
    hide Good, Records, SourceName, SourceEvent;
  }

  lemma StillComesIn(s: Setup, a: World, b: World, d: Stamp, r: Receipt, f: Facts)
    requires Good(s, a) && Good(s, b) && SourceComesIn(s, a, d, r, f)
    requires b.disks == a.disks && b.logs == a.logs && b.unhealthy == a.unhealthy
    ensures SourceComesIn(s, b, d, r, f)
  {
    hide Good, Reply, Marks, SourceOffer;
  }

  /** A first replay puts the source record in and is cut off before its marker, at
      whatever point; the process is started anew, and the Issue reads differently by
      then. The second replay meets a collision, and the delivery stays without a
      marker, though storage works again and nobody interferes. */
  method ReplayAfterEdit(service: Service, delivery: Stamp, receipt: Receipt, first: Facts, second: Facts) returns (r: Processed)
    requires service.Valid() && delivery !in service.inbox && delivery !in service.processed
    requires SourceComesIn(service.setup, service.Now(), delivery, receipt, first) && AllFair(first) && !first.mark.Visible()
    requires Undisturbed(service.setup, second) && AllFair(second) && second.look.Seen?
    requires service.setup.h(J.OfValue(SourceEvent(service.setup.h, first.source.issue)))
             != service.setup.h(J.OfValue(SourceEvent(service.setup.h, second.source.issue)))
    modifies service
    ensures service.Valid() && r == Raised(EventCollision) && !service.unhealthy
    ensures delivery in service.inbox && service.inbox[delivery] == receipt && delivery !in service.processed
  {
    hide Good, Onward, OnlyAdded, SourceIsIn, SourceChanged, Completes, AllFair, AboutTask, Contributed, SourceEvent, Smooth,
         Passes, Reply;
    ghost var before := service.Now();
    ComesInHealthy(service.setup, before, delivery, receipt, first);
    var accepted := service.Accept(delivery, receipt.body, receipt.metadata, J.Done);
    StillComesIn(service.setup, before, service.Now(), delivery, receipt, first);
    var cutOff := service.Process(delivery, first);
    ghost var between := service.Now();
    service.Restart();
    Service.KeptSource(service.setup, between, service.Now(), delivery, receipt, first);
    MarkedClashes(service.setup, service.Now(), delivery, receipt, first, second);
    NoOthers(service.setup, second);
    r := service.Process(delivery, second);
  }

  lemma ComesInHealthy(s: Setup, w: World, d: Stamp, r: Receipt, f: Facts)
    requires Good(s, w) && SourceComesIn(s, w, d, r, f)
    ensures !w.unhealthy && AboutTask(s, r)
  {
  }

  lemma NoOthers(s: Setup, f: Facts)
    requires Undisturbed(s, f)
    ensures f.others(0) == [] && AllFair(f)
  {
  }

  /** Such a first replay exists: any delivery about an open Issue of a served
      repository, seen for the first time, puts its source in. */
  lemma FirstReplayComesIn(s: Setup, w: World, d: Stamp, r: Receipt, f: Facts)
    requires Good(s, w) && AboutTask(s, r) && f.look.Seen? && !w.unhealthy && KeyOf(s, r).value !in w.disks
    requires KeyOf(s, r).value !in w.logs
    requires (forall x: J.Document :: s.encodable(x)) && f.others(0) == [] && forall i :: f.io(0)(i) == J.Done
    ensures SourceComesIn(s, w, d, r, f)
  {
    hide Good, SourceEvent, SourceName, IssueDocument, W.Fresh;
    var key := KeyOf(s, r).value;
    EmptyWhole(s.h, s.codec, key);
    Service.SourceArguments(s.h, d, f.source, f.time);
    assert Records(s, w, key) == [];
  }

  // ---- Nothing else keeps a replay from settling ----

  predicate AllObserved(v: W.View) {
    forall c <- v.comments :: !v.comments[c].Unobservable?
  }

  /** The task, if there is one, follows the view's policy and has its source. */
  predicate Stands(t: Option<W.Task>, v: W.View) {
    t.Some? ==> t.value.config == v.config && W.SameSource(t.value.source, v.issue)
  }

  lemma ProofDeterministic(v: W.View, proof: Option<W.Proof>)
    requires AllObserved(v) && W.ProofRefusal(v, proof).Some?
    ensures IsDeterministic(Flow(W.ProofRefusal(v, proof).value))
    ensures proof.Some? ==> W.Revokes(W.ProofRefusal(v, proof).value)
  {
    hide W.HoldsRoles;
  }

  lemma BasisDeterministic(t: W.Task, v: W.View)
    requires AllObserved(v) && Stands(Some(t), v) && W.BasisRefusal(t, v, false).Some?
    ensures IsDeterministic(Flow(W.BasisRefusal(t, v, false).value))
  {
    hide W.ProofRefusal;
    if W.ProofRefusal(v, t.requirementApproval).Some? {
      ProofDeterministic(v, t.requirementApproval);
    }
    if W.ProofRefusal(v, t.startApproval).Some? {
      ProofDeterministic(v, t.startApproval);
    }
  }

  lemma FirstDeterministic(v: W.View, proofs: seq<Option<W.Proof>>)
    requires AllObserved(v) && W.FirstRefusal(v, proofs).Some?
    ensures IsDeterministic(Flow(W.FirstRefusal(v, proofs).value))
  {
    hide W.ProofRefusal, IsDeterministic;
    if proofs[0].Some? && W.ProofRefusal(v, proofs[0]).Some? {
      ProofDeterministic(v, proofs[0]);
    } else {
      FirstDeterministic(v, proofs[1..]);
    }
  }

  lemma OperateDeterministic(t: W.Task, v: W.View, posted: W.Evidence, c: W.Command)
    requires AllObserved(v) && posted.Posted? && (c.Stop? || c.Cancel? || c.Resume?) && W.Operate(t, v, posted, c).Refuse?
    ensures IsDeterministic(Flow(W.Operate(t, v, posted, c).code))
  {
    hide W.HoldsRoles, W.FirstRefusal;
    var proofs := [t.requirementApproval, t.startApproval, t.designApproval];
    if W.FirstRefusal(v, proofs).Some? {
      FirstDeterministic(v, proofs);
    }
  }

  lemma CommandDeterministic(t: W.Task, v: W.View, comment: nat, c: W.Command)
    requires AllObserved(v) && Stands(Some(t), v) && W.Handle(t, v, comment, c).Refuse?
    ensures IsDeterministic(Flow(W.Handle(t, v, comment, c).code))
  {
    hide W.HoldsRoles, W.ProofRefusal, W.BasisRefusal, W.Operate, W.ApprovalRoles, W.StartAllowed, W.ModeAllowed, W.ResetScope;
    if W.ProofRefusal(v, t.requirementApproval).Some? {
      ProofDeterministic(v, t.requirementApproval);
    }
    if W.BasisRefusal(t, v, false).Some? {
      BasisDeterministic(t, v);
    }
    if W.CommentRefusal(v, comment).None? && (c.Stop? || c.Cancel? || c.Resume?)
       && W.Operate(t, v, v.comments[comment], c).Refuse? {
      OperateDeterministic(t, v, v.comments[comment], c);
    }
  }

  lemma ReconcileDeterministic(t: W.Task, v: W.View)
    requires AllObserved(v) && Stands(Some(t), v) && W.Reconcile(t, v).Refuse?
    ensures IsDeterministic(Flow(W.Reconcile(t, v).code))
  {
    hide W.ProofRefusal, W.Withdrawn, W.Revokes;
    if W.ProofRefusal(v, t.requirementApproval).Some? {
      ProofDeterministic(v, t.requirementApproval);
    }
    if W.ProofRefusal(v, t.startApproval).Some? {
      ProofDeterministic(v, t.startApproval);
    }
    if W.ProofRefusal(v, t.designApproval).Some? {
      ProofDeterministic(v, t.designApproval);
    }
  }

  /** What a processor's commit is refused for on a standing basis would be refused
      again. */
  lemma RefusalDeterministic(t: Option<W.Task>, v: W.View, a: W.Action)
    requires a.Capturing? || ((a.Commanding? || a.Reconciling?) && Stands(t, v) && AllObserved(v))
    requires t.Some? ==> t.value.config == v.config
    requires NextTask(t, v, a).Refuse?
    ensures IsDeterministic(Flow(NextTask(t, v, a).code))
  {
    hide W.Handle, W.Reconcile, W.Captured, W.ResetScope, W.Settle, W.Fresh, Stands, AllObserved, IsDeterministic;
    if t.Some? {
      if a.Commanding? {
        CommandDeterministic(t.value, v, a.comment, a.command);
      } else if a.Reconciling? {
        ReconcileDeterministic(t.value, v);
      } else {
        CaptureDeterministic(t.value, v);
      }
    } else {
      MissingDeterministic();
    }
  }

  lemma CaptureDeterministic(t: W.Task, v: W.View)
    requires t.config == v.config && W.Capture(t, v).Refuse?
    ensures IsDeterministic(Flow(W.Capture(t, v).code))
  {
    hide W.Captured, W.ResetScope;
  }

  lemma MissingDeterministic()
    ensures IsDeterministic(Flow(W.TaskMissing))
  {
  }

  lemma CaptureStands(t: Option<W.Task>, v: W.View)
    requires NextTask(t, v, W.Capturing).Next?
    ensures Stands(Some(NextTask(t, v, W.Capturing).task), v)
  {
    hide W.Apply, W.PhaseOf, W.IdleStatus, W.FailedHere;
    if t.Some? {
      Laws.CaptureRefused(t.value, v);
      Laws.CapturedOnce(t.value, v);
    } else {
      A.SettleKeeps(W.Captured(W.ResetScope(
        W.Task(v.config, v.issue, 0, v.issue, 0, 0, [], None, None, false, None, None, None, false, false, false, 0,
               v.startPolicy, v.designMode, None, W.InRequirements, W.Queued)), v, true));
    }
  }

  /** The name, if it is taken, is taken by this content. */
  predicate Free(h: J.Hash, b: Brief, o: Offer) {
    o.id in b.marks ==> b.marks[o.id] == h(J.OfValue(o.event))
  }

  lemma Admitted(h: J.Hash, b: Brief, o: Offer)
    requires J.ArgumentsAllowed(RequestOf(o)) && Free(h, b, o)
    requires o.action.Capturing? || ((o.action.Commanding? || o.action.Reconciling?) && Stands(b.task, o.view) && AllObserved(o.view))
    requires b.task.Some? ==> b.task.value.config == o.view.config
    ensures var r := Reply(h, b, o); Passes(r) || IsDeterministic(FaultOf(r))
    ensures var r := Reply(h, b, o); !Passes(r) ==> r.Declined?
  {
    hide J.ArgumentsAllowed, NextTask, Stands, AllObserved, IsDeterministic;
    if o.id !in b.marks && NextTask(b.task, o.view, o.action).Refuse? {
      RefusalDeterministic(b.task, o.view, o.action);
    }
  }

  /** The two looks of one replay agree on policy and content, and the later one saw
      every comment it asked for. */
  predicate Agrees(first: W.View, later: W.View) {
    later.config == first.config && W.SameSource(first.issue, later.issue) && AllObserved(later)
  }

  /** What a replay of a delivery about a task needs: the Issue read as it was, if it
      was read for this delivery before, one policy, one content and every comment
      observed throughout, and the comment named that the kind needs. */
  predicate Unobstructed(h: J.Hash, b: Brief, d: Stamp, m: Metadata, f: Facts) {
    var source := SourceOffer(h, d, f.source, f.time);
    && f.look.Seen? && Agrees(f.source, f.follow) && Agrees(f.source, f.last)
    && Free(h, b, source) && Free(h, b, ReconcileOffer(d, f.follow, f.time)) && Free(h, b, ReconcileOffer(d, f.last, f.time))
    && (b.task.Some? ==> b.task.value.config == f.source.config)
    && (SourceName(d) in b.marks ==> Stands(b.task, f.source))
    && (m.kind.IssueComment? ==> m.comment.Some? && J.IsIdentifier(CommentName(m.comment.value)))
    && (m.comment.Some? && CommentFault(f.follow, m.comment.value, f.parsed).None? ==>
          Free(h, b, CommandOffer(m.comment.value, f.parsed.command, f.follow, f.time)))
  }

  lemma ReconcileUnobstructed(h: J.Hash, b: Brief, d: Stamp, v: W.View, time: string)
    requires Free(h, b, ReconcileOffer(d, v, time)) && Stands(b.task, v) && AllObserved(v)
    ensures ReconcileSettles(h, b, d, v, time)
  {
    hide Stands, AllObserved, SourceName, ReconciledName, Free, Reply;
    OwnNames(d);
    StandsPolicy(b.task, v);
    Admitted(h, b, ReconcileOffer(d, v, time));
  }

  lemma StandsPolicy(t: Option<W.Task>, v: W.View)
    requires Stands(t, v)
    ensures t.Some? ==> t.value.config == v.config
  {
  }

  lemma CommandUnobstructed(h: J.Hash, b: Brief, d: Stamp, comment: nat, f: Facts)
    requires Stands(b.task, f.follow) && AllObserved(f.follow) && Stands(b.task, f.last) && AllObserved(f.last)
    requires Free(h, b, ReconcileOffer(d, f.last, f.time)) && J.IsIdentifier(CommentName(comment))
    requires CommentFault(f.follow, comment, f.parsed).None? ==>
               Free(h, b, CommandOffer(comment, f.parsed.command, f.follow, f.time))
    ensures CommandSettles(h, b, d, comment, f)
  {
    hide Stands, SourceName, ReconciledName, CommentName, Free, Reply, ReconcileSettles, J.IsIdentifier;
    ReconcileUnobstructed(h, b, d, f.last, f.time);
    if CommentFault(f.follow, comment, f.parsed).None? {
      StandsPolicy(b.task, f.follow);
      Admitted(h, b, CommandOffer(comment, f.parsed.command, f.follow, f.time));
    }
  }

  /** Such a delivery completes. So the failures that keep a replay from settling its
      delivery are these: an Issue that cannot be read, or was edited since it was
      recorded for the delivery, or between two looks of the replay; a comment whose
      record differs; another policy; a comment that cannot be observed or named. */
  lemma UnobstructedCompletes(s: Setup, w: World, d: Stamp, r: Receipt, f: Facts)
    requires Good(s, w) && AboutTask(s, r)
    requires Unobstructed(s.h, BriefOf(s, w, KeyOf(s, r).value), d, r.metadata, f)
    ensures Completes(s, w, d, r, f)
  {
    hide Good, BriefOf, Unobstructed, SourceSettles;
    SourceUnobstructed(s.h, BriefOf(s, w, KeyOf(s, r).value), d, r.metadata, f);
  }

  lemma SourceUnobstructed(h: J.Hash, b: Brief, d: Stamp, m: Metadata, f: Facts)
    requires (m.kind.Issues? || m.kind.IssueComment?) && Unobstructed(h, b, d, m, f)
    ensures SourceSettles(h, b, d, m, f)
  {
    hide SourceName, ReconciledName, CommentName, Reply, FollowUpSettles, J.IsIdentifier, SourceEvent, Agrees, Stands;
    var o := SourceOffer(h, d, f.source, f.time);
    Service.SourceArguments(h, d, f.source, f.time);
    Admitted(h, b, o);
    if Passes(Reply(h, b, o)) {
      SourceStands(h, b, d, m, f);
      var next := AfterOffer(h, b, o);
      OwnNames(d);
      FreeLater(h, b, next, d, ReconcileOffer(d, f.follow, f.time));
      FreeLater(h, b, next, d, ReconcileOffer(d, f.last, f.time));
      if m.comment.Some? && CommentFault(f.follow, m.comment.value, f.parsed).None? {
        CommentsOwnNothing(m.comment.value);
        FreeLater(h, b, next, d, CommandOffer(m.comment.value, f.parsed.command, f.follow, f.time));
      }
      FollowUnobstructed(h, AfterOffer(h, b, o), d, m, f);
    }
  }

  lemma FreeLater(h: J.Hash, b: Brief, next: Brief, d: Stamp, o: Offer)
    requires Free(h, b, o) && o.id != SourceName(d) && next.marks.Keys <= b.marks.Keys + {SourceName(d)}
    requires forall id <- b.marks :: id in next.marks && next.marks[id] == b.marks[id]
    ensures Free(h, next, o)
  {
    hide SourceName;
  }

  lemma SourceStands(h: J.Hash, b: Brief, d: Stamp, m: Metadata, f: Facts)
    requires Unobstructed(h, b, d, m, f) && Passes(Reply(h, b, SourceOffer(h, d, f.source, f.time)))
    ensures var next := AfterOffer(h, b, SourceOffer(h, d, f.source, f.time));
            && Stands(next.task, f.source) && next.marks.Keys <= b.marks.Keys + {SourceName(d)}
            && forall id <- b.marks :: id in next.marks && next.marks[id] == b.marks[id]
  {
    hide ReconciledName, CommentName, J.ArgumentsAllowed, SourceEvent, NextTask, Agrees, Stands;
    if Reply(h, b, SourceOffer(h, d, f.source, f.time)).Adds? {
      CaptureStands(b.task, f.source);
    }
  }

  lemma FollowUnobstructed(h: J.Hash, next: Brief, d: Stamp, m: Metadata, f: Facts)
    requires (m.kind.Issues? || m.kind.IssueComment?) && Stands(next.task, f.source) && Agrees(f.source, f.follow) && Agrees(f.source, f.last)
    requires Free(h, next, ReconcileOffer(d, f.follow, f.time)) && Free(h, next, ReconcileOffer(d, f.last, f.time))
    requires m.kind.IssueComment? ==> m.comment.Some? && J.IsIdentifier(CommentName(m.comment.value))
    requires m.comment.Some? && CommentFault(f.follow, m.comment.value, f.parsed).None? ==>
               Free(h, next, CommandOffer(m.comment.value, f.parsed.command, f.follow, f.time))
    ensures FollowUpSettles(h, next, d, m, f)
  {
    hide ReconciledName, CommentName, J.IsIdentifier, Free, ReconcileSettles, CommandSettles, CommentFault;
    ReconcileUnobstructed(h, next, d, f.follow, f.time);
    if m.kind.IssueComment? {
      CommandUnobstructed(h, next, d, m.comment.value, f);
    }
  }
}
