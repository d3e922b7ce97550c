/** What an undisturbed replay leaves of a task's approvals. */
module ReplayLaws {
  import opened Results
  import opened TaskJournal
  import opened EventProcessor
  import A = Approvals
  import J = Journal
  import L = WorkflowLaws
  import W = Workflow

  /** The task takes a reconciliation under this observation. */
  ghost predicate Rechecks(t: W.Task, v: W.View) {
    L.Open(t, v) && L.Sourced(t, v) && forall g: A.Gate :: L.SeenAt(t, v, g)
  }

  /** Once the source is in, the task is there, this delivery has not reconciled it
      yet, and it takes a reconciliation under the observation. */
  ghost predicate Due(h: J.Hash, b: Brief, d: Stamp, f: Facts, v: W.View) {
    var o := SourceOffer(h, d, f.source, f.time);
    && f.look.Seen? && Passes(Reply(h, b, o))
    && var next := AfterOffer(h, b, o);
       next.task.Some? && ReconciledName(d) !in next.marks && Rechecks(next.task.value, v)
  }

  /** Afterwards the reconciliation is recorded, and every approval in force has an
      unedited human comment that reads as when it was given, by somebody who is in the
      list of each of its roles. */
  ghost predicate Rechecked(b: Brief, d: Stamp, v: W.View) {
    b.task.Some? && ReconciledName(d) in b.marks && L.HeldNow(b.task.value, v)
  }

  /** No approval rests on the comment. */
  ghost predicate Forsaken(b: Brief, comment: nat) {
    b.task.Some? ==> forall g: A.Gate :: A.Held(b.task.value, g).Some? ==> A.Held(b.task.value, g).value.comment != comment
  }

  lemma RecheckedForsakes(b: Brief, d: Stamp, v: W.View, comment: nat)
    requires Rechecked(b, d, v) && LostComment(v, comment)
    ensures Forsaken(b, comment)
  {
    hide A.Held;
    forall g: A.Gate | A.Held(b.task.value, g).Some?
      ensures A.Held(b.task.value, g).value.comment != comment
    {
      assert L.Standing(v, A.Held(b.task.value, g).value);
    }
  }

  lemma ReconciledHolds(t: W.Task, v: W.View)
    requires Rechecks(t, v)
    ensures W.Apply(t, v, W.Reconciling).Next? && L.HeldNow(W.Apply(t, v, W.Reconciling).task, v)
  {
    hide W.Apply, L.Open, L.Sourced, L.Standing, L.Unseen;
    L.ReconcileExactly(t, v, A.RequirementGate);
    var u := W.Apply(t, v, W.Reconciling).task;
    forall g: A.Gate | A.Held(u, g).Some?
      ensures L.Standing(v, A.Held(u, g).value)
    {
      L.ReconcileExactly(t, v, g);
      assert L.SeenAt(t, v, g);
    }
  }

  lemma ReconcileRechecks(h: J.Hash, b: Brief, d: Stamp, v: W.View, time: string)
    requires b.task.Some? && ReconciledName(d) !in b.marks && Rechecks(b.task.value, v)
    ensures Rechecked(AfterOffer(h, b, ReconcileOffer(d, v, time)), d, v) && ReconcileSettles(h, b, d, v, time)
  {
    hide W.Apply, Rechecks, L.HeldNow, ReconciledName, IsDeterministic;
    OwnNames(d);
    ReconciledHolds(b.task.value, v);
  }

  /** The comment of the delivery is lost, or its command was refused for a lost
      approval or a missing role. */
  ghost predicate Reveals(h: J.Hash, b: Brief, comment: nat, f: Facts) {
    || LostComment(f.follow, comment)
    || (CommentFault(f.follow, comment, f.parsed).None?
        && var r := Reply(h, b, CommandOffer(comment, f.parsed.command, f.follow, f.time));
           r == Declined(W.ApprovalRevoked) || r == Declined(W.CommandForbidden))
  }

  lemma RevealedRejection(h: J.Hash, b: Brief, d: Stamp, comment: nat, f: Facts)
    requires Reveals(h, b, comment, f)
    ensures AfterCommand(h, b, d, comment, f) == AfterOffer(h, b, ReconcileOffer(d, f.last, f.time))
    ensures ReconcileSettles(h, b, d, f.last, f.time) ==> CommandSettles(h, b, d, comment, f)
  {
    hide AfterOffer, Reply, ReconcileOffer, ReconcileSettles, LostComment, CommentFault, CommandOffer;
    if LostComment(f.follow, comment) {
      LostReveals(f.follow, comment, f.parsed);
      FinalExactly(CommentFault(f.follow, comment, f.parsed).value);
    }
  }

  /** A new comment that is gone, not a person's or edited by the time its delivery is
      replayed, or whose command is refused for a lost approval or a missing role, has
      the approvals checked: the replay settles, and only those that stand are left. */
  lemma LossIsChecked(h: J.Hash, b: Brief, d: Stamp, m: Metadata, f: Facts)
    requires m.kind.IssueComment? && m.action.Created? && m.comment.Some? && Due(h, b, d, f, f.last)
    requires Reveals(h, AfterOffer(h, b, SourceOffer(h, d, f.source, f.time)), m.comment.value, f)
    ensures SourceSettles(h, b, d, m, f) && Rechecked(AfterReplay(h, b, d, m, f), d, f.last)
    ensures LostComment(f.last, m.comment.value) ==> Forsaken(AfterReplay(h, b, d, m, f), m.comment.value)
  {
    hide Reply, AfterOffer, SourceOffer, ReconcileOffer, Reveals, LostComment, Rechecked, Rechecks, CommandSettles, AfterCommand,
         ReconcileSettles, ReconciledName, Forsaken;
    var next := AfterOffer(h, b, SourceOffer(h, d, f.source, f.time));
    RevealedRejection(h, next, d, m.comment.value, f);
    ReconcileRechecks(h, next, d, f.last, f.time);
    if LostComment(f.last, m.comment.value) {
      RecheckedForsakes(AfterReplay(h, b, d, m, f), d, f.last, m.comment.value);
    }
  }

  /** So does the delivery of a changed comment, or of any event of the Issue but its
      closing, under what is observed right after the source. */
  lemma ChangeIsChecked(h: J.Hash, b: Brief, d: Stamp, m: Metadata, f: Facts)
    requires Due(h, b, d, f, f.follow)
    requires (m.kind.IssueComment? && !m.action.Created? && m.comment.Some?) || (m.kind.Issues? && !m.action.Closed?)
    ensures SourceSettles(h, b, d, m, f) && Rechecked(AfterReplay(h, b, d, m, f), d, f.follow)
    ensures m.comment.Some? && LostComment(f.follow, m.comment.value) ==> Forsaken(AfterReplay(h, b, d, m, f), m.comment.value)
  {
    hide Reply, AfterOffer, SourceOffer, ReconcileOffer, LostComment, Rechecked, Rechecks, ReconcileSettles, ReconciledName, Forsaken;
    var next := AfterOffer(h, b, SourceOffer(h, d, f.source, f.time));
    ReconcileRechecks(h, next, d, f.follow, f.time);
    if m.comment.Some? && LostComment(f.follow, m.comment.value) {
      RecheckedForsakes(AfterReplay(h, b, d, m, f), d, f.follow, m.comment.value);
    }
  }

  /** What is wrong with a comment and its first line: nothing exactly if it is a
      person's unedited comment that gives a command. */
  lemma FaultsMean(v: W.View, comment: nat, parsed: Parsed)
    ensures CommentFault(v, comment, parsed) == None <==> L.Speaks(v, comment) && parsed.Says?
    ensures L.Speaks(v, comment) && parsed == Ignored ==> CommentFault(v, comment, parsed) == Some(CommandIgnored)
    ensures L.Speaks(v, comment) && parsed == Invalid ==> CommentFault(v, comment, parsed) == Some(CommandInvalid)
    ensures L.Speaks(v, comment) && parsed == ReadOnly ==> CommentFault(v, comment, parsed) == Some(CommandReadOnly)
    ensures !L.Speaks(v, comment) ==>
              W.CommentRefusal(v, comment).Some? && CommentFault(v, comment, parsed) == Some(Flow(W.CommentRefusal(v, comment).value))
  {
  }

  /** A new comment whose command the workflow accepts takes effect by its replay, once:
      the delivery settles, and the task is what the command makes of it; a comment
      handled before with the same content changes nothing. */
  lemma CommandTakesEffect(h: J.Hash, b: Brief, d: Stamp, m: Metadata, f: Facts)
    requires m.kind.IssueComment? && m.action.Created? && m.comment.Some?
    requires f.look.Seen? && Passes(Reply(h, b, SourceOffer(h, d, f.source, f.time)))
    requires L.Speaks(f.follow, m.comment.value) && f.parsed.Says? && J.IsIdentifier(CommentName(m.comment.value))
    ensures var next := AfterOffer(h, b, SourceOffer(h, d, f.source, f.time));
            var name, event := CommentName(m.comment.value), CommandEvent(f.follow.comments[m.comment.value]);
            && (next.task.Some? && name !in next.marks
                && W.Apply(next.task.value, f.follow, W.Commanding(m.comment.value, f.parsed.command)).Next? ==>
                  && SourceSettles(h, b, d, m, f)
                  && AfterReplay(h, b, d, m, f)
                     == Brief(next.marks[name := h(J.OfValue(event))],
                              Some(W.Apply(next.task.value, f.follow, W.Commanding(m.comment.value, f.parsed.command)).task)))
            && (name in next.marks && next.marks[name] == h(J.OfValue(event)) ==>
                  SourceSettles(h, b, d, m, f) && AfterReplay(h, b, d, m, f) == next)
  {
    hide W.Apply, SourceOffer, ReconcileOffer, CommentName, J.IsIdentifier;
    FaultsMean(f.follow, m.comment.value, f.parsed);
    CommandReply(h, AfterOffer(h, b, SourceOffer(h, d, f.source, f.time)), m.comment.value, f);
  }

  lemma CommandReply(h: J.Hash, b: Brief, comment: nat, f: Facts)
    requires L.Speaks(f.follow, comment) && f.parsed.Says? && J.IsIdentifier(CommentName(comment))
    ensures J.ArgumentsAllowed(RequestOf(CommandOffer(comment, f.parsed.command, f.follow, f.time)))
  {
    hide CommentName, J.IsIdentifier;
  }

  /** With which fault an offer that does not go in is answered. */
  lemma RefusalsMean(r: Ruling)
    requires !Passes(r)
    ensures FaultOf(r) == if r == Collides then EventCollision else if r == Conflicts then StateConflict
                          else if r.Declined? then Flow(r.code) else NotAcceptable
  {
  }

  /** A command refused for any other reason adds nothing to the source. */
  lemma OtherRefusalsAddNothing(h: J.Hash, b: Brief, d: Stamp, m: Metadata, f: Facts)
    requires m.kind.IssueComment? && m.action.Created? && m.comment.Some?
    requires f.look.Seen? && Passes(Reply(h, b, SourceOffer(h, d, f.source, f.time)))
    requires var next := AfterOffer(h, b, SourceOffer(h, d, f.source, f.time));
             && !Reveals(h, next, m.comment.value, f)
             && (CommentFault(f.follow, m.comment.value, f.parsed).None? ==>
                   var r := Reply(h, next, CommandOffer(m.comment.value, f.parsed.command, f.follow, f.time));
                   !Passes(r) && r != Declined(W.CommandActor) && r != Declined(W.CommandEdited))
    ensures AfterReplay(h, b, d, m, f) == AfterOffer(h, b, SourceOffer(h, d, f.source, f.time))
  {
    hide Reply, AfterOffer, SourceOffer, ReconcileOffer, CommandOffer;
  }

  /** The closing of an Issue is recorded as its source and nothing else. */
  lemma ClosingAddsNothing(h: J.Hash, b: Brief, d: Stamp, m: Metadata, f: Facts)
    requires m.kind.Issues? && m.action.Closed? && f.look.Seen? && Passes(Reply(h, b, SourceOffer(h, d, f.source, f.time)))
    ensures SourceSettles(h, b, d, m, f)
    ensures AfterReplay(h, b, d, m, f) == AfterOffer(h, b, SourceOffer(h, d, f.source, f.time))
  {
    hide Reply, AfterOffer, SourceOffer;
  }

  ghost function BriefNow(service: Service, key: J.TaskKey): Brief
    requires service.Valid()
    reads service
  {
    BriefOf(service.setup, service.Now(), key)
  }

  /** One undisturbed replay of the delivery of a comment that gave an approval and
      was edited or deleted since: the delivery settles, and no approval of that
      comment is in force. */
  method ReplayLostComment(service: Service, delivery: Stamp, f: Facts) returns (r: Processed)
    requires service.Valid() && delivery in service.inbox && delivery !in service.processed && !service.unhealthy
    requires Undisturbed(service.setup, f) && AllFair(f) && AboutTask(service.setup, service.inbox[delivery])
    requires var m := service.inbox[delivery].metadata;
             && m.kind.IssueComment? && m.action.Created? && m.comment.Some?
             && LostComment(f.follow, m.comment.value) && LostComment(f.last, m.comment.value)
    requires Due(service.setup.h, BriefNow(service, KeyOf(service.setup, service.inbox[delivery]).value), delivery, f, f.last)
    modifies service
    ensures service.Valid() && service.inbox == old(service.inbox) && r.Settled? && delivery in service.processed
    ensures Forsaken(BriefNow(service, KeyOf(service.setup, service.inbox[delivery]).value),
                     service.inbox[delivery].metadata.comment.value)
  {
    hide Good, Onward, OnlyAdded, Undisturbed, AllFair, SourceSettles, AfterReplay, Due, LostComment, Forsaken, Contributed,
         SourceChanged, SourceComesIn, SourceIsIn, BriefOf;
    ghost var key, m := KeyOf(service.setup, service.inbox[delivery]).value, service.inbox[delivery].metadata;
    LossRevealed(service.setup.h, AfterOffer(service.setup.h, BriefNow(service, key), SourceOffer(service.setup.h, delivery, f.source, f.time)),
                 m.comment.value, f);
    LossIsChecked(service.setup.h, BriefNow(service, key), delivery, m, f);
    r := service.Process(delivery, f);
  }

  lemma LossRevealed(h: J.Hash, b: Brief, comment: nat, f: Facts)
    requires LostComment(f.follow, comment)
    ensures Reveals(h, b, comment, f)
  {
  }
}
