/** The webhook inbox and the processor that turns a stored delivery into events of
    its task's journal, as often as it has to be replayed. */
module EventProcessor {
  import opened Results
  import opened TaskJournal
  import A = Approvals
  import J = Journal
  import W = Workflow

  datatype Kind = Issues | IssueComment | Scope | Unsupported

  datatype Action = Created | Closed | OtherAction

  datatype Metadata = Metadata(kind: Kind, action: Action, repository: Option<int>, issue: Option<int>, comment: Option<nat>)

  /** A stored delivery. */
  datatype Receipt = Receipt(body: string, metadata: Metadata)

  predicate IsStamp(s: string) {
    |s| == 32 && forall c <- s :: '0' <= c <= '9' || 'a' <= c <= 'f'
  }

  /** The digits of its digest by which a delivery names its records. */
  type Stamp = s: string | IsStamp(s) witness "00000000000000000000000000000000"

  function SourceName(d: Stamp): string {
    "github-" + d + "-source"
  }

  function ReconciledName(d: Stamp): string {
    "github-" + d + "-reconcile"
  }

  /** Names that only the processor gives. */
  predicate OwnName(id: string) {
    |id| >= 7 && id[..7] == "github-"
  }

  predicate NamedBy(id: string, d: Stamp) {
    id == SourceName(d) || id == ReconciledName(d)
  }

  lemma OwnNames(d: Stamp)
    ensures OwnName(SourceName(d)) && OwnName(ReconciledName(d)) && SourceName(d) != ReconciledName(d)
    ensures J.IsIdentifier(SourceName(d)) && J.IsIdentifier(ReconciledName(d))
  {
    assert SourceName(d)[..7] == "github-" && ReconciledName(d)[..7] == "github-";
    assert |SourceName(d)| == 46 && |ReconciledName(d)| == 49;
  }

  lemma CommentsOwnNothing(comment: nat)
    ensures !OwnName(CommentName(comment))
  {
    assert CommentName(comment)[0] == 'c';
    assert "github-"[0] == 'g';
  }

  /** A name tells its delivery. */
  lemma NamesIdentify(id: string, d: Stamp, e: Stamp)
    requires NamedBy(id, d) && NamedBy(id, e)
    ensures d == e
  {
    assert |SourceName(d)| == |SourceName(e)| == 46 && |ReconciledName(d)| == |ReconciledName(e)| == 49;
    assert id[7..39] == d && id[7..39] == e;
  }

  // ---- Contents; each offer is made for some revision when it is committed ----

  function IssueDocument(issue: W.Source): J.Value {
    J.Object(map["content" := J.Text(issue.content), "open" := J.Flag(issue.open), "version" := J.Text(issue.version)])
  }

  function SourceEvent(h: J.Hash, issue: W.Source): J.Value {
    J.Object(map["kind" := J.Text("source_observed"), "digest" := J.Text(h(J.OfValue(IssueDocument(issue))))])
  }

  function CommentDocument(posted: W.Evidence): J.Value
    requires posted.Posted?
  {
    J.Object(map["actor" := J.Number(posted.actor), "document" := J.Text(posted.document)])
  }

  function CommandEvent(posted: W.Evidence): J.Value
    requires posted.Posted?
  {
    J.Object(map["kind" := J.Text("human_command"), "digest" := J.Text(posted.document)])
  }

  const RECONCILED := J.Object(map["kind" := J.Text("approvals_reconciled")])

  function SourceOffer(h: J.Hash, d: Stamp, v: W.View, time: string): Offer {
    Offer(SourceName(d), SourceEvent(h, v.issue), [IssueDocument(v.issue)], 0, time, v, W.Capturing)
  }

  function ReconcileOffer(d: Stamp, v: W.View, time: string): Offer {
    Offer(ReconciledName(d), RECONCILED, [], 0, time, v, W.Reconciling)
  }

  function CommandOffer(comment: nat, command: W.Command, v: W.View, time: string): Offer
    requires comment in v.comments && v.comments[comment].Posted?
  {
    var posted := v.comments[comment];
    Offer(CommentName(comment), CommandEvent(posted), [CommentDocument(posted)], 0, time, v,
          W.Commanding(comment, command))
  }

  // ---- Outcomes ----

  datatype Fault = Flow(code: W.Code) | IssueActor | CommandIgnored | CommandInvalid | CommandReadOnly
                 | EventCollision | StateConflict | NotAcceptable | StoreFailure | WebhookCollision | WebhookProcessor
                 | NotObserved

  /** Rejections that settle the delivery: a replay would meet them again. */
  predicate IsDeterministic(f: Fault) {
    match f
    case Flow(code) =>
      !(code.PolicyChanged? || code.SourceChanged? || code.RepairDenied? || code.RunConflict? || code.RunBasisChanged?
        || code.NotPublished? || code.ObservationFailed?)
    case _ => f.IssueActor? || f.CommandIgnored? || f.CommandInvalid? || f.CommandReadOnly?
  }

  predicate NeedsReconcile(f: Fault) {
    f.Flow? && (f.code.ApprovalRevoked? || f.code.CommandActor? || f.code.CommandEdited? || f.code.CommandForbidden?)
  }

  /** The rejections named final; any other failure leaves the delivery to a replay. */
  predicate Final(f: Fault) {
    || f == IssueActor || f == CommandIgnored || f == CommandInvalid || f == CommandReadOnly
    || (f.Flow? && f.code in {W.TaskMissing, W.TaskTerminal, W.TaskCancelling, W.IssueClosed, W.ApprovalRequired,
                              W.ApprovalRevoked, W.CommandEdited, W.CommandForbidden, W.CommandActor, W.StartRequired,
                              W.RevisionStale, W.QuestionsOpen, W.AlreadyApproved, W.AlreadyStarted, W.OverrideForbidden,
                              W.DesignAutomatic, W.TaskNotPaused, W.GateClosed})
  }

  /** The comment is gone, is not a person's or was edited. */
  predicate LostComment(v: W.View, comment: nat) {
    || comment !in v.comments || v.comments[comment].Missing?
    || (v.comments[comment].Posted? && (!v.comments[comment].human || v.comments[comment].edited))
  }

  /** A comment or role was lost that an approval may rest on. */
  predicate Revealing(v: W.View, comment: nat, f: Fault) {
    LostComment(v, comment) || f == Flow(W.ApprovalRevoked) || f == Flow(W.CommandForbidden)
  }

  lemma FinalExactly(f: Fault)
    ensures IsDeterministic(f) <==> Final(f)
  {
  }

  lemma LostReveals(v: W.View, comment: nat, parsed: Parsed)
    requires LostComment(v, comment)
    ensures var fault := CommentFault(v, comment, parsed); fault.Some? && NeedsReconcile(fault.value) && Final(fault.value)
  {
  }

  lemma RevealingReconciles(v: W.View, comment: nat, parsed: Parsed, f: Fault)
    requires CommentFault(v, comment, parsed).Some? ==> f == CommentFault(v, comment, parsed).value
    requires Revealing(v, comment, f)
    ensures NeedsReconcile(f)
  {
    if LostComment(v, comment) {
      LostReveals(v, comment, parsed);
    }
  }

  datatype Status = ScopeReconciled | IgnoredUnconfigured | IgnoredDisabled | SourceRejected | SourceObserved
                  | SourceAndApprovalsReconciled | SourceObservedReconcileRejected | CommandApplied | CommandRejected
                  | ApprovalsReconciled | ReconcileRejected

  datatype Outcome = Outcome(status: Status, revision: Option<nat>, rejection: Option<Fault>, reconcileRejection: Option<Fault>)

  datatype Processed = Settled(outcome: Outcome) | Raised(fault: Fault)

  datatype Received = Stored(receipt: Receipt, duplicate: bool) | Unstored(fault: Fault)

  // ---- The store ----

  /** What the operator configured, with the digest, the size limit and the JSON form
      that all tasks share. */
  datatype Setup = Setup(h: J.Hash, encodable: J.Document -> bool, codec: Codec, instance: string, repositories: map<int, bool>)

  /** Everything durable, the health of the storage, and the histories behind the journals. */
  datatype World = World(disks: map<J.TaskKey, J.Disk>, unhealthy: bool, inbox: map<Stamp, Receipt>,
                         processed: map<Stamp, Outcome>, logs: map<J.TaskKey, seq<A.Event>>)

  const EMPTY := J.Disk(map[], map[], None)

  function DiskOf(disks: map<J.TaskKey, J.Disk>, key: J.TaskKey): J.Disk {
    if key in disks then disks[key] else EMPTY
  }

  function LogOf(logs: map<J.TaskKey, seq<A.Event>>, key: J.TaskKey): seq<A.Event> {
    if key in logs then logs[key] else []
  }

  /** The task a delivery is about, if its repository is served. */
  function KeyOf(s: Setup, r: Receipt): Option<J.TaskKey> {
    var m := r.metadata;
    if m.repository.Some? && m.repository.value in s.repositories && s.repositories[m.repository.value] && m.issue.Some?
    then Some(J.TaskKey(s.instance, m.repository.value, m.issue.value)) else None
  }

  /** A task's journal stands for a lawful history, and its blobs are what they are named. */
  ghost predicate Whole(s: Setup, w: World, key: J.TaskKey) {
    Kept(s.h, s.codec, key, DiskOf(w.disks, key), LogOf(w.logs, key)) && J.Intact(s.h, DiskOf(w.disks, key).blobs)
  }

  function Records(s: Setup, w: World, key: J.TaskKey): seq<J.Record> {
    var accepted := J.Accepted(s.h, key, DiskOf(w.disks, key));
    if accepted.Some? then accepted.value else []
  }

  /** Only stored deliveries have records, and only in the journal of their own task. */
  ghost predicate Traced(s: Setup, w: World, key: J.TaskKey) {
    forall r <- Records(s, w, key), d: Stamp :: NamedBy(r.body.eventId, d) ==> Sent(s, w.inbox, d, key)
  }

  predicate Sent(s: Setup, inbox: map<Stamp, Receipt>, d: Stamp, key: J.TaskKey) {
    d in inbox && KeyOf(s, inbox[d]) == Some(key)
  }

  ghost predicate Good(s: Setup, w: World) {
    Lossless(s.codec) && forall key: J.TaskKey :: Whole(s, w, key) && Traced(s, w, key)
  }

  lemma EmptyWhole(h: J.Hash, codec: Codec, key: J.TaskKey)
    ensures Kept(h, codec, key, EMPTY, []) && RecordsOf(h, key, EMPTY) == [] && J.Intact(h, EMPTY.blobs)
  {
    assert J.Names(EMPTY) == {};
  }

  /** Nothing durable is lost or changed; journals and histories only grow. */
  ghost predicate Onward(s: Setup, a: World, b: World)
    requires Good(s, a) && Good(s, b)
  {
    && (forall d <- a.inbox :: d in b.inbox && b.inbox[d] == a.inbox[d])
    && (forall d <- a.processed :: d in b.processed && b.processed[d] == a.processed[d])
    && forall key: J.TaskKey :: Longer(s, a, b, key)
  }

  ghost predicate Longer(s: Setup, a: World, b: World, key: J.TaskKey)
    requires Good(s, a) && Good(s, b)
  {
    Records(s, a, key) <= Records(s, b, key) && LogOf(a.logs, key) <= LogOf(b.logs, key)
  }

  lemma OnwardSelf(s: Setup, a: World)
    requires Good(s, a)
    ensures Onward(s, a, a)
  {
  }

  lemma OnwardTwice(s: Setup, a: World, b: World, c: World)
    requires Good(s, a) && Good(s, b) && Good(s, c) && Onward(s, a, b) && Onward(s, b, c)
    ensures Onward(s, a, c)
  {
    hide Good, Records, LogOf;
    forall key: J.TaskKey
      ensures Longer(s, a, c, key)
    {
      assert Longer(s, a, b, key) && Longer(s, b, c, key);
    }
  }

  /** What was added, journal by journal, has one of these names. */
  ghost predicate OnlyAdded(s: Setup, a: World, b: World, names: set<(J.TaskKey, string)>)
    requires Good(s, a) && Good(s, b)
  {
    forall key: J.TaskKey, r :: r in Records(s, b, key) && r !in Records(s, a, key) ==> (key, r.body.eventId) in names
  }

  lemma AddedTwice(s: Setup, a: World, b: World, c: World, names: set<(J.TaskKey, string)>)
    requires Good(s, a) && Good(s, b) && Good(s, c) && OnlyAdded(s, a, b, names) && OnlyAdded(s, b, c, names)
    ensures OnlyAdded(s, a, c, names)
  {
    hide Good, Records;
  }

  // ---- One commit ----

  /** No name of the processor, or one of a delivery of this task. */
  ghost predicate Permitted(s: Setup, w: World, key: J.TaskKey, id: string) {
    OwnName(id) ==> exists d: Stamp :: NamedBy(id, d) && Sent(s, w.inbox, d, key)
  }

  function Committed(w: World, key: J.TaskKey, disk: J.Disk, unhealthy: bool, log: seq<A.Event>): World {
    w.(disks := w.disks[key := disk], unhealthy := unhealthy, logs := w.logs[key := log])
  }

  /** The journal is as it was, or has one record more, of that name. */
  predicate AtMostAdds(rs: seq<J.Record>, after: seq<J.Record>, id: string) {
    after == rs || (|after| == |rs| + 1 && rs <= after && after[|rs|].body.eventId == id)
  }

  lemma OthersWhole(s: Setup, w: World, key: J.TaskKey, disk: J.Disk, unhealthy: bool, log: seq<A.Event>, other: J.TaskKey)
    requires Good(s, w) && other != key
    ensures var next := Committed(w, key, disk, unhealthy, log);
            Whole(s, next, other) && Traced(s, next, other) && Records(s, next, other) == Records(s, w, other)
            && LogOf(next.logs, other) == LogOf(w.logs, other)
  {
    hide Kept, J.Intact, RecordsOf;
    assert Whole(s, w, other) && Traced(s, w, other);
  }

  lemma OwnTraced(s: Setup, w: World, key: J.TaskKey, disk: J.Disk, unhealthy: bool, log: seq<A.Event>, id: string)
    requires Good(s, w) && Permitted(s, w, key, id)
    requires Kept(s.h, s.codec, key, disk, log) && J.Intact(s.h, disk.blobs)
    requires AtMostAdds(Records(s, w, key), RecordsOf(s.h, key, disk), id)
    ensures Whole(s, Committed(w, key, disk, unhealthy, log), key) && Traced(s, Committed(w, key, disk, unhealthy, log), key)
  {
    hide Kept, J.Intact, RecordsOf, SourceName, ReconciledName, OwnName;
    var next := Committed(w, key, disk, unhealthy, log);
    assert Whole(s, w, key) && Traced(s, w, key);
    CommittedRecords(s, w, key, disk, unhealthy, log);
    forall r <- Records(s, next, key), d: Stamp | NamedBy(r.body.eventId, d)
      ensures Sent(s, next.inbox, d, key)
    {
      if r !in Records(s, w, key) {
        OwnNames(d);
        var e: Stamp :| NamedBy(id, e) && Sent(s, w.inbox, e, key);
        NamesIdentify(id, d, e);
      }
    }
  }

  lemma CommittedRecords(s: Setup, w: World, key: J.TaskKey, disk: J.Disk, unhealthy: bool, log: seq<A.Event>)
    requires Kept(s.h, s.codec, key, disk, log)
    ensures Records(s, Committed(w, key, disk, unhealthy, log), key) == RecordsOf(s.h, key, disk)
    ensures DiskOf(Committed(w, key, disk, unhealthy, log).disks, key) == disk
  {
    hide J.Accepted, J.SnapshotCurrent, Represents;
  }

  /** A commit keeps the store good and moves it onward. */
  lemma CommitGood(s: Setup, w: World, key: J.TaskKey, disk: J.Disk, unhealthy: bool, log: seq<A.Event>, id: string)
    requires Good(s, w) && Permitted(s, w, key, id)
    requires Kept(s.h, s.codec, key, disk, log) && J.Intact(s.h, disk.blobs)
    requires AtMostAdds(Records(s, w, key), RecordsOf(s.h, key, disk), id) && LogOf(w.logs, key) <= log
    ensures var next := Committed(w, key, disk, unhealthy, log);
            && Good(s, next) && Onward(s, w, next) && OnlyAdded(s, w, next, {(key, id)})
            && Records(s, next, key) == RecordsOf(s.h, key, disk)
            && forall other: J.TaskKey :: other != key ==> Records(s, next, other) == Records(s, w, other)
  {
    hide Kept, J.Intact, RecordsOf, Permitted;
    var next := Committed(w, key, disk, unhealthy, log);
    OwnTraced(s, w, key, disk, unhealthy, log, id);
    CommittedRecords(s, w, key, disk, unhealthy, log);
    forall other: J.TaskKey
      ensures Whole(s, next, other) && Traced(s, next, other)
      ensures other != key ==> Records(s, next, other) == Records(s, w, other) && LogOf(next.logs, other) == LogOf(w.logs, other)
    {
      if other != key {
        OthersWhole(s, w, key, disk, unhealthy, log, other);
      }
    }
    forall other: J.TaskKey
      ensures Longer(s, w, next, other)
    {
    }
  }

  lemma EndsAtMostAdds(h: J.Hash, rs: seq<J.Record>, log: seq<A.Event>, o: Offer, ruling: Ruling, unhealthy: bool,
                       after: seq<J.Record>, now: seq<A.Event>, failed: bool, answer: Answer)
    requires Ends(h, rs, log, o, ruling, unhealthy, after, now, failed, answer)
    ensures AtMostAdds(rs, after, o.id) && log <= now
    ensures unhealthy ==> failed
  {
  }

  // ---- What others do ----

  /** Another engine's commit: to any task, under no name of the processor. */
  datatype Foreign = Foreign(key: J.TaskKey, offer: Offer, io: nat -> J.Publication)

  predicate Fair(f: Foreign) {
    Proper(f.offer) && !OwnName(f.offer.id)
  }

  ghost function ForeignNames(fs: seq<Foreign>): set<(J.TaskKey, string)> {
    set f | f in fs :: (f.key, f.offer.id)
  }

  // ---- When a replay settles its delivery ----

  /** Whether the Issue was read, and by whom it was written. */
  datatype Look = Seen | NotHuman | Unseen

  datatype Parsed = Ignored | Invalid | ReadOnly | Says(command: W.Command)

  /** What one replay meets: what the live API says at its three commits, what the
      comment says, what the scope's reconciler says, how storage answers, and what
      others commit before each commit of its own. */
  datatype Facts = Facts(look: Look, source: W.View, follow: W.View, last: W.View, parsed: Parsed, scoped: bool, time: string,
                         io: nat -> nat -> J.Publication, mark: J.Publication, others: nat -> seq<Foreign>)

  ghost predicate AllFair(f: Facts) {
    forall n, o :: o in f.others(n) ==> Fair(o)
  }

  /** Storage works and nobody interferes. */
  ghost predicate Undisturbed(s: Setup, f: Facts) {
    && (forall d: J.Document :: s.encodable(d)) && (forall n, i :: f.io(n)(i) == J.Done) && f.mark.Done?
    && forall n :: f.others(n) == []
  }

  /** What a journal comes to for later commits: the digest under each name, and the
      task's state. */
  datatype Brief = Brief(marks: map<string, J.Digest>, task: Option<W.Task>)

  function Marks(rs: seq<J.Record>): map<string, J.Digest> {
    if rs == [] then map[]
    else Marks(rs[..|rs| - 1])[rs[|rs| - 1].body.eventId := rs[|rs| - 1].body.requestDigest]
  }

  ghost function BriefOf(s: Setup, w: World, key: J.TaskKey): Brief
    requires Good(s, w)
  {
    Brief(Marks(Records(s, w, key)), A.After(LogOf(w.logs, key), |LogOf(w.logs, key)|).task)
  }

  /** What becomes of an offer made on the latest revision. */
  function Reply(h: J.Hash, b: Brief, o: Offer): Ruling {
    if !J.ArgumentsAllowed(RequestOf(o)) then Malformed
    else if o.id in b.marks then (if b.marks[o.id] == h(J.OfValue(o.event)) then Known else Collides)
    else
      match NextTask(b.task, o.view, o.action)
      case Refuse(code) => Declined(code)
      case Next(t) => Adds(t)
  }

  function AfterOffer(h: J.Hash, b: Brief, o: Offer): Brief {
    var r := Reply(h, b, o);
    if r.Adds? then Brief(b.marks[o.id := h(J.OfValue(o.event))], Some(r.task)) else b
  }

  predicate Passes(r: Ruling) {
    r.Known? || r.Adds?
  }

  lemma RefusedAddsNothing(h: J.Hash, b: Brief, o: Offer)
    ensures !Passes(Reply(h, b, o)) ==> AfterOffer(h, b, o) == b
  {
    hide Reply;
  }

  function FaultOf(r: Ruling): Fault
    requires !Passes(r)
  {
    match r
    case Collides => EventCollision
    case Conflicts => StateConflict
    case Declined(code) => Flow(code)
    case _ => NotAcceptable
  }

  /** What is wrong with the comment itself. */
  function CommentFault(v: W.View, comment: nat, parsed: Parsed): (fault: Option<Fault>)
    ensures fault.None? ==> comment in v.comments && v.comments[comment].Posted? && parsed.Says?
  {
    if W.CommentRefusal(v, comment).Some? then Some(Flow(W.CommentRefusal(v, comment).value))
    else
      match parsed
      case Ignored => Some(CommandIgnored)
      case Invalid => Some(CommandInvalid)
      case ReadOnly => Some(CommandReadOnly)
      case Says(_) => None
  }

  predicate ReconcileSettles(h: J.Hash, b: Brief, d: Stamp, v: W.View, time: string) {
    var r := Reply(h, b, ReconcileOffer(d, v, time));
    Passes(r) || IsDeterministic(FaultOf(r))
  }

  predicate RejectionSettles(h: J.Hash, b: Brief, d: Stamp, fault: Fault, f: Facts) {
    IsDeterministic(fault) && (NeedsReconcile(fault) ==> ReconcileSettles(h, b, d, f.last, f.time))
  }

  predicate CommandSettles(h: J.Hash, b: Brief, d: Stamp, comment: nat, f: Facts) {
    var fault := CommentFault(f.follow, comment, f.parsed);
    if fault.Some? then RejectionSettles(h, b, d, fault.value, f)
    else
      var r := Reply(h, b, CommandOffer(comment, f.parsed.command, f.follow, f.time));
      Passes(r) || RejectionSettles(h, b, d, FaultOf(r), f)
  }

  predicate FollowUpSettles(h: J.Hash, b: Brief, d: Stamp, m: Metadata, f: Facts) {
    if m.kind.Issues? then m.action.Closed? || ReconcileSettles(h, b, d, f.follow, f.time)
    else
      && m.comment.Some?
      && if m.action.Created? then CommandSettles(h, b, d, m.comment.value, f) else ReconcileSettles(h, b, d, f.follow, f.time)
  }

  predicate SourceSettles(h: J.Hash, b: Brief, d: Stamp, m: Metadata, f: Facts) {
    match f.look
    case NotHuman => true
    case Unseen => false
    case Seen =>
      var o := SourceOffer(h, d, f.source, f.time);
      var r := Reply(h, b, o);
      if Passes(r) then FollowUpSettles(h, AfterOffer(h, b, o), d, m, f) else IsDeterministic(FaultOf(r))
  }

  // ---- What an undisturbed replay leaves in the journal ----

  function AfterRejection(h: J.Hash, b: Brief, d: Stamp, fault: Fault, f: Facts): Brief {
    if IsDeterministic(fault) && NeedsReconcile(fault) then AfterOffer(h, b, ReconcileOffer(d, f.last, f.time)) else b
  }

  function AfterCommand(h: J.Hash, b: Brief, d: Stamp, comment: nat, f: Facts): Brief {
    var fault := CommentFault(f.follow, comment, f.parsed);
    if fault.Some? then AfterRejection(h, b, d, fault.value, f)
    else
      var o := CommandOffer(comment, f.parsed.command, f.follow, f.time);
      var r := Reply(h, b, o);
      if Passes(r) then AfterOffer(h, b, o) else AfterRejection(h, b, d, FaultOf(r), f)
  }

  function AfterFollowUp(h: J.Hash, b: Brief, d: Stamp, m: Metadata, f: Facts): Brief {
    if m.kind.Issues? then if m.action.Closed? then b else AfterOffer(h, b, ReconcileOffer(d, f.follow, f.time))
    else if m.comment.None? then b
    else if m.action.Created? then AfterCommand(h, b, d, m.comment.value, f)
    else AfterOffer(h, b, ReconcileOffer(d, f.follow, f.time))
  }

  /** The journal of the delivery's task after one undisturbed replay. */
  function AfterReplay(h: J.Hash, b: Brief, d: Stamp, m: Metadata, f: Facts): Brief {
    var o := SourceOffer(h, d, f.source, f.time);
    if f.look.Seen? && Passes(Reply(h, b, o)) then AfterFollowUp(h, AfterOffer(h, b, o), d, m, f) else b
  }

  predicate Served(s: Setup, m: Metadata) {
    m.repository.Some? && m.repository.value in s.repositories && s.repositories[m.repository.value]
  }

  /** The delivery's kind is processed, and no step of it meets a failure that a later
      replay might not meet. */
  ghost predicate Completes(s: Setup, w: World, d: Stamp, r: Receipt, f: Facts)
    requires Good(s, w)
  {
    var m := r.metadata;
    match m.kind
    case Scope => f.scoped
    case Unsupported => false
    case _ =>
      if !Served(s, m) then true
      else
        var key := KeyOf(s, r);
        key.Some? && SourceSettles(s.h, BriefOf(s, w, key.value), d, m, f)
  }

  // ---- Records as marks ----

  lemma {:induction false} MarksKeys(rs: seq<J.Record>)
    ensures Marks(rs).Keys == J.EventIds(rs)
  {
    if rs != [] {
      MarksKeys(rs[..|rs| - 1]);
      assert rs == rs[..|rs| - 1] + [rs[|rs| - 1]];
    }
  }

  lemma {:induction false} MarksOf(rs: seq<J.Record>, r: J.Record)
    requires forall i, j :: 0 <= i < j < |rs| ==> rs[i].body.eventId != rs[j].body.eventId
    requires r in rs
    ensures r.body.eventId in Marks(rs) && Marks(rs)[r.body.eventId] == r.body.requestDigest
  {
    var shorter := rs[..|rs| - 1];
    if r != rs[|rs| - 1] {
      var i :| 0 <= i < |rs| && rs[i] == r;
      assert shorter[i] == r;
      MarksOf(shorter, r);
    }
  }

  lemma MarksClash(h: J.Hash, rs: seq<J.Record>, id: string, event: J.Value)
    requires forall i, j :: 0 <= i < j < |rs| ==> rs[i].body.eventId != rs[j].body.eventId
    ensures J.HoldsOther(h, rs, id, event) <==> id in Marks(rs) && Marks(rs)[id] != h(J.OfValue(event))
  {
    hide Marks;
    MarksKeys(rs);
    forall r <- rs
      ensures r.body.eventId in Marks(rs) && Marks(rs)[r.body.eventId] == r.body.requestDigest
    {
      MarksOf(rs, r);
    }
  }

  lemma MarksNext(rs: seq<J.Record>, r: J.Record)
    ensures Marks(rs + [r]) == Marks(rs)[r.body.eventId := r.body.requestDigest]
  {
    assert (rs + [r])[..|rs|] == rs;
  }

  // ---- Commits of the processor ----

  datatype Done = In(revision: nat) | Out(fault: Fault)

  function DoneOf(a: Answer): Done {
    match a
    case Applied(revision) => In(revision)
    case Repeated(revision) => In(revision)
    case Rejected(why) => if Passes(why) then Out(NotAcceptable) else Out(FaultOf(why))
    case NotStored => Out(StoreFailure)
  }

  /** What an undisturbed commit comes to. */
  ghost predicate Goes(s: Setup, a: World, b: World, key: J.TaskKey, o: Offer, d: Done)
    requires Good(s, a) && Good(s, b)
  {
    var r := Reply(s.h, BriefOf(s, a, key), o);
    && BriefOf(s, b, key) == AfterOffer(s.h, BriefOf(s, a, key), o)
    && d == (if Passes(r) then In(|Records(s, b, key)|) else Out(FaultOf(r)))
  }

  lemma ReplyRules(s: Setup, w: World, key: J.TaskKey, o: Offer)
    requires Good(s, w) && (forall d: J.Document :: s.encodable(d)) && o.expected == |Records(s, w, key)|
    ensures Rule(s.h, key, s.encodable, s.codec, Records(s, w, key), o) == Reply(s.h, BriefOf(s, w, key), o)
  {
    hide J.ArgumentsAllowed, NextTask, Represents, J.Accepted, J.NextRecord, A.After, J.HoldsOther, Lossless, TaskOf, J.LastState, J.Intact;
    var rs := Records(s, w, key);
    assert Whole(s, w, key);
    J.DistinctEvents(s.h, key, DiskOf(w.disks, key));
    MarksClash(s.h, rs, o.id, o.event);
    MarksKeys(rs);
    CurrentTask(s.codec, rs, LogOf(w.logs, key));
  }

  lemma OfferRevision(h: J.Hash, b: Brief, o: Offer, revision: nat)
    ensures Reply(h, b, o.(expected := revision)) == Reply(h, b, o)
    ensures AfterOffer(h, b, o.(expected := revision)) == AfterOffer(h, b, o)
  {
    hide NextTask, J.IsIdentifier;
  }

  /** The commit took the offer as the reply says. */
  lemma GoesOn(s: Setup, a: World, b: World, key: J.TaskKey, o: Offer, answer: Answer)
    requires Good(s, a) && Good(s, b) && (forall d: J.Document :: s.encodable(d)) && o.expected == |Records(s, a, key)|
    requires Ends(s.h, Records(s, a, key), LogOf(a.logs, key), o,
                  Rule(s.h, key, s.encodable, s.codec, Records(s, a, key), o), a.unhealthy,
                  Records(s, b, key), LogOf(b.logs, key), b.unhealthy, answer)
    requires !a.unhealthy && !answer.NotStored?
    ensures Goes(s, a, b, key, o, DoneOf(answer))
  {
    hide Good, Rule, Records, LogOf, J.ArgumentsAllowed, NextTask, A.After, A.Step, A.Legal, Marks;
    ReplyRules(s, a, key, o);
    var before, after := Records(s, a, key), Records(s, b, key);
    var log, now := LogOf(a.logs, key), LogOf(b.logs, key);
    var r := Reply(s.h, BriefOf(s, a, key), o);
    if r.Adds? {
      assert after == before + [after[|before|]];
      MarksNext(before, after[|before|]);
      A.SameAfter(log, A.Event(o.view, o.action), |log|);
      A.OneAfter(now, |log|);
      AddedTask(A.After(log, |log|), o);
    }
  }

  lemma AddedTask(w: A.World, o: Offer)
    requires NextTask(w.task, o.view, o.action).Next?
    ensures A.Step(w, A.Event(o.view, o.action)).task == Some(NextTask(w.task, o.view, o.action).task)
  {
    hide W.Apply, W.Fresh;
  }

  /** The journal has the event under its name. */
  ghost predicate Marked(s: Setup, w: World, key: J.TaskKey, id: string, event: J.Value)
    requires Good(s, w)
  {
    exists r <- Records(s, w, key) :: r.body.eventId == id && r.body.requestDigest == s.h(J.OfValue(event))
  }

  lemma MarkedLater(s: Setup, a: World, b: World, key: J.TaskKey, id: string, event: J.Value)
    requires Good(s, a) && Good(s, b) && Onward(s, a, b) && Marked(s, a, key, id, event)
    ensures Marked(s, b, key, id, event)
  {
    hide Good, Records, LogOf;
    assert Longer(s, a, b, key);
    var r :| r in Records(s, a, key) && r.body.eventId == id && r.body.requestDigest == s.h(J.OfValue(event));
    var i :| 0 <= i < |Records(s, a, key)| && Records(s, a, key)[i] == r;
    assert Records(s, b, key)[i] == r;
  }

  ghost predicate Clashes(s: Setup, w: World, key: J.TaskKey, o: Offer)
    requires Good(s, w)
  {
    J.HoldsOther(s.h, Records(s, w, key), o.id, o.event)
  }

  lemma ClashesLater(s: Setup, a: World, b: World, key: J.TaskKey, o: Offer)
    requires Good(s, a) && Good(s, b) && Onward(s, a, b) && Clashes(s, a, key, o)
    ensures Clashes(s, b, key, o)
  {
    hide Good, Records, LogOf;
    assert Longer(s, a, b, key);
    var r :| r in Records(s, a, key) && r.body.eventId == o.id && r.body.requestDigest != s.h(J.OfValue(o.event));
    var i :| 0 <= i < |Records(s, a, key)| && Records(s, a, key)[i] == r;
    assert Records(s, b, key)[i] == r;
  }

  /** What any end of a commit says of the offered event. */
  lemma EndsMarked(s: Setup, a: World, b: World, key: J.TaskKey, o: Offer, answer: Answer)
    requires Good(s, a) && Good(s, b)
    requires Ends(s.h, Records(s, a, key), LogOf(a.logs, key), o,
                  Rule(s.h, key, s.encodable, s.codec, Records(s, a, key), o), a.unhealthy,
                  Records(s, b, key), LogOf(b.logs, key), b.unhealthy, answer)
    ensures DoneOf(answer).In? ==> Marked(s, b, key, o.id, o.event) && !a.unhealthy
    ensures Clashes(s, a, key, o) && J.ArgumentsAllowed(RequestOf(o)) ==>
              DoneOf(answer) == Out(if a.unhealthy then StoreFailure else EventCollision)
              && Records(s, b, key) == Records(s, a, key)
  {
    hide Good, Records, LogOf, J.ArgumentsAllowed, NextTask, J.NextRecord;
    var before, after := Records(s, a, key), Records(s, b, key);
    if answer.Applied? {
      assert after[|before|] in after;
    }
  }

  /** An offer prepared on another revision adds nothing; it is answered only if its
      name is taken. */
  lemma StaleAddsNothing(s: Setup, a: World, b: World, key: J.TaskKey, o: Offer, answer: Answer)
    requires Good(s, a) && Good(s, b) && o.expected != |Records(s, a, key)|
    requires Ends(s.h, Records(s, a, key), LogOf(a.logs, key), o,
                  Rule(s.h, key, s.encodable, s.codec, Records(s, a, key), o), a.unhealthy,
                  Records(s, b, key), LogOf(b.logs, key), b.unhealthy, answer)
    ensures Records(s, b, key) == Records(s, a, key)
    ensures DoneOf(answer).In? ==> J.Holds(Records(s, a, key), o.id)
  {
    hide Good, Records, LogOf, J.ArgumentsAllowed, Taken;
    if J.ArgumentsAllowed(RequestOf(o)) {
      RuleMeans(s.h, key, s.encodable, s.codec, Records(s, a, key), o);
    } else {
      MalformedRule(s.h, key, s.encodable, s.codec, Records(s, a, key), o);
    }
  }

  lemma MalformedRule(h: J.Hash, key: J.TaskKey, encodable: J.Document -> bool, codec: Codec, rs: seq<J.Record>, o: Offer)
    requires !J.ArgumentsAllowed(RequestOf(o))
    ensures Rule(h, key, encodable, codec, rs, o).Malformed?
  {
  }

  /** Storage works for this commit, on the latest revision. */
  ghost predicate Smooth(s: Setup, w: World, key: J.TaskKey, revision: nat, io: nat -> J.Publication, others: seq<Foreign>) {
    && !w.unhealthy && others == [] && (forall d: J.Document :: s.encodable(d)) && (forall i :: io(i) == J.Done)
    && revision == |Records(s, w, key)|
  }

  lemma NothingAdded(s: Setup, w: World, names: set<(J.TaskKey, string)>)
    requires Good(s, w)
    ensures OnlyAdded(s, w, w, names)
  {
  }

  lemma AddedMore(s: Setup, a: World, b: World, names: set<(J.TaskKey, string)>, more: set<(J.TaskKey, string)>)
    requires Good(s, a) && Good(s, b) && OnlyAdded(s, a, b, names) && names <= more
    ensures OnlyAdded(s, a, b, more)
  {
    hide Good, Records;
  }

  /** The names one replay may put records under, and those of others meanwhile. */
  ghost function Planned(s: Setup, d: Stamp, r: Receipt): set<(J.TaskKey, string)> {
    var key := KeyOf(s, r);
    if key.None? then {}
    else {(key.value, SourceName(d)), (key.value, ReconciledName(d))}
         + if r.metadata.comment.Some? then {(key.value, CommentName(r.metadata.comment.value))} else {}
  }

  ghost function Allowed(s: Setup, d: Stamp, r: Receipt, f: Facts): set<(J.TaskKey, string)> {
    Planned(s, d, r) + ForeignNames(f.others(0)) + ForeignNames(f.others(1)) + ForeignNames(f.others(2))
  }

  lemma AllowedNames(s: Setup, d: Stamp, r: Receipt, f: Facts, key: J.TaskKey)
    requires KeyOf(s, r) == Some(key)
    ensures ForeignNames(f.others(0)) + {(key, SourceName(d))} <= Allowed(s, d, r, f)
    ensures ForeignNames(f.others(1)) + {(key, ReconciledName(d))} <= Allowed(s, d, r, f)
    ensures ForeignNames(f.others(2)) + {(key, ReconciledName(d))} <= Allowed(s, d, r, f)
    ensures r.metadata.comment.Some? ==>
              ForeignNames(f.others(1)) + {(key, CommentName(r.metadata.comment.value))} <= Allowed(s, d, r, f)
  {
    hide ForeignNames, SourceName, ReconciledName, CommentName;
  }

  /** The statuses under which a delivery settles without being observed. */
  predicate Unobserved(s: Status) {
    s.ScopeReconciled? || s.IgnoredUnconfigured? || s.IgnoredDisabled? || s.SourceRejected?
  }

  /** The status tells what kind of delivery settled, and whether something was
      rejected; what was is final. */
  predicate Fits(s: Setup, m: Metadata, o: Outcome) {
    && (o.status.ScopeReconciled? <==> m.kind.Scope?)
    && (o.status.IgnoredUnconfigured? <==> !m.kind.Scope? && (m.repository.None? || m.repository.value !in s.repositories))
    && (o.status.IgnoredDisabled? <==>
          !m.kind.Scope? && m.repository.Some? && m.repository.value in s.repositories && !s.repositories[m.repository.value])
    && (o.status.SourceObserved? ==> m.kind.Issues? && m.action.Closed?)
    && (o.status.SourceAndApprovalsReconciled? || o.status.SourceObservedReconcileRejected? ==> m.kind.Issues? && !m.action.Closed?)
    && (o.status.CommandApplied? || o.status.CommandRejected? ==> m.kind.IssueComment? && m.action.Created?)
    && (o.status.ApprovalsReconciled? || o.status.ReconcileRejected? ==> m.kind.IssueComment? && !m.action.Created?)
    && (o.rejection.Some? <==> o.status.SourceRejected? || o.status.CommandRejected?)
    && (o.rejection.Some? ==> Final(o.rejection.value))
    && (o.reconcileRejection.Some? ==> Final(o.reconcileRejection.value))
    && (o.status.SourceObservedReconcileRejected? || o.status.ReconcileRejected? ==> o.reconcileRejection.Some?)
    && (o.reconcileRejection.Some? ==>
          o.status.SourceObservedReconcileRejected? || o.status.ReconcileRejected? || o.status.CommandRejected?)
  }

  /** A rejection that reveals a loss had the approvals checked. */
  ghost predicate RejectedCommand(s: Setup, w: World, key: J.TaskKey, d: Stamp, r: Receipt, f: Facts, o: Outcome)
    requires Good(s, w)
  {
    && r.metadata.comment.Some? && o.rejection.Some?
    && (Revealing(f.follow, r.metadata.comment.value, o.rejection.value) ==>
          o.reconcileRejection.Some? || Marked(s, w, key, ReconciledName(d), RECONCILED))
  }

  /** What a delivery that settles has in its task's journal. */
  ghost predicate Contributed(s: Setup, w: World, d: Stamp, r: Receipt, f: Facts, o: Outcome)
    requires Good(s, w)
  {
    Fits(s, r.metadata, o) && (!Unobserved(o.status) ==> Recorded(s, w, d, r, f, o))
  }

  ghost predicate Recorded(s: Setup, w: World, d: Stamp, r: Receipt, f: Facts, o: Outcome)
    requires Good(s, w)
  {
    && KeyOf(s, r).Some?
    && Marked(s, w, KeyOf(s, r).value, SourceName(d), SourceEvent(s.h, f.source.issue))
    && (o.status.CommandApplied? ==> AppliedCommand(s, w, KeyOf(s, r).value, r, f))
    && (o.status.CommandRejected? ==> RejectedCommand(s, w, KeyOf(s, r).value, d, r, f, o))
    && (o.status.SourceAndApprovalsReconciled? || o.status.ApprovalsReconciled? ==>
          Marked(s, w, KeyOf(s, r).value, ReconciledName(d), RECONCILED))
  }

  ghost predicate AppliedCommand(s: Setup, w: World, key: J.TaskKey, r: Receipt, f: Facts)
    requires Good(s, w)
  {
    && r.metadata.comment.Some?
    && CommentFault(f.follow, r.metadata.comment.value, f.parsed).None?
    && Marked(s, w, key, CommentName(r.metadata.comment.value), CommandEvent(f.follow.comments[r.metadata.comment.value]))
  }

  /** With nothing disturbing it, a step settles exactly if it should. */
  ghost predicate Exactly(s: Setup, b: World, settles: bool, r: Processed) {
    !b.unhealthy && (r.Settled? <==> settles)
  }

  ghost predicate Calm(s: Setup, w: World, key: J.TaskKey, revision: nat, f: Facts) {
    Undisturbed(s, f) && !w.unhealthy && revision == |Records(s, w, key)|
  }

  lemma CalmSmooth(s: Setup, w: World, key: J.TaskKey, revision: nat, f: Facts, n: nat)
    requires Calm(s, w, key, revision, f)
    ensures Smooth(s, w, key, revision, f.io(n), f.others(n)) && !w.unhealthy
  {
    hide Records;
  }

  predicate AboutTask(s: Setup, r: Receipt) {
    (r.metadata.kind.Issues? || r.metadata.kind.IssueComment?) && KeyOf(s, r).Some?
  }

  /** An earlier replay recorded the source, and the Issue reads differently now. */
  ghost predicate SourceChanged(s: Setup, w: World, d: Stamp, r: Receipt, f: Facts)
    requires Good(s, w)
  {
    AboutTask(s, r) && f.look.Seen? && Clashes(s, w, KeyOf(s, r).value, SourceOffer(s.h, d, f.source, f.time))
  }

  /** The source is observed, admissible, and its commit is not disturbed. */
  ghost predicate SourceComesIn(s: Setup, w: World, d: Stamp, r: Receipt, f: Facts)
    requires Good(s, w)
  {
    && AboutTask(s, r) && f.look.Seen?
    && Smooth(s, w, KeyOf(s, r).value, |Records(s, w, KeyOf(s, r).value)|, f.io(0), f.others(0))
    && Passes(Reply(s.h, BriefOf(s, w, KeyOf(s, r).value), SourceOffer(s.h, d, f.source, f.time)))
  }

  /** The journal of the delivery's task is what an undisturbed replay leaves. */
  ghost predicate Replayed(s: Setup, a: World, b: World, d: Stamp, r: Receipt, f: Facts)
    requires Good(s, a) && Good(s, b) && KeyOf(s, r).Some?
  {
    BriefOf(s, b, KeyOf(s, r).value) == AfterReplay(s.h, BriefOf(s, a, KeyOf(s, r).value), d, r.metadata, f)
  }

  ghost predicate SourceIsIn(s: Setup, w: World, d: Stamp, r: Receipt, f: Facts)
    requires Good(s, w)
  {
    KeyOf(s, r).Some? && Marked(s, w, KeyOf(s, r).value, SourceName(d), SourceEvent(s.h, f.source.issue))
  }

  // ---- What holds of every store the service can come to ----

  lemma WholeFacts(s: Setup, w: World, key: J.TaskKey)
    requires Good(s, w)
    ensures A.LegalLog(LogOf(w.logs, key)) && Represents(s.codec, Records(s, w, key), LogOf(w.logs, key))
    ensures var rs := Records(s, w, key); forall i, j :: 0 <= i < j < |rs| ==> rs[i].body.eventId != rs[j].body.eventId
  {
    hide J.Accepted, J.SnapshotCurrent, J.Intact, Represents;
    assert Whole(s, w, key);
    J.DistinctEvents(s.h, key, DiskOf(w.disks, key));
    RepresentsLawful(s.codec, Records(s, w, key), LogOf(w.logs, key));
  }

  lemma RepresentsLawful(codec: Codec, rs: seq<J.Record>, log: seq<A.Event>)
    requires Represents(codec, rs, log)
    ensures A.LegalLog(log) && |log| == |rs|
  {
  }

  /** However often a delivery is redelivered and replayed, its source and its
      reconciliation are each recorded once, in one task's journal. */
  lemma DeliveryOnce(s: Setup, w: World, d: Stamp, name: string, key: J.TaskKey, i: nat, other: J.TaskKey, j: nat)
    requires Good(s, w) && NamedBy(name, d)
    requires i < |Records(s, w, key)| && j < |Records(s, w, other)|
    requires Records(s, w, key)[i].body.eventId == name && Records(s, w, other)[j].body.eventId == name
    ensures key == other && i == j && d in w.inbox && KeyOf(s, w.inbox[d]) == Some(key)
  {
    hide Records, Whole, NamedBy;
    assert Traced(s, w, key) && Traced(s, w, other);
    assert Sent(s, w.inbox, d, key) && Sent(s, w.inbox, d, other);
    WholeFacts(s, w, key);
  }

  /** Two events of a history that handle the same comment. */
  predicate SameCommand(log: seq<A.Event>, i: nat, j: nat)
    requires i < |log| && j < |log|
  {
    log[i].action.Commanding? && log[j].action.Commanding? && log[i].action.comment == log[j].action.comment
  }

  /** However often a comment is delivered, in whatever deliveries, its command is
      committed once. */
  lemma CommandOnce(s: Setup, w: World, key: J.TaskKey, i: nat, j: nat)
    requires Good(s, w) && i < j < |LogOf(w.logs, key)|
    ensures !SameCommand(LogOf(w.logs, key), i, j)
  {
    hide Good, Records, CommentName;
    WholeFacts(s, w, key);
    var log, rs := LogOf(w.logs, key), Records(s, w, key);
    assert Tells(s.codec, rs, log, i) && Tells(s.codec, rs, log, j);
  }

  /** An approval in force after `i` events, lost after `j`, and in force again after `n`. */
  ghost predicate Regained(log: seq<A.Event>, i: nat, j: nat, n: nat, g: A.Gate)
    requires A.LegalLog(log) && 0 < i < j <= n <= |log|
  {
    && A.Held(A.TaskAt(log, i), g).Some? && A.Held(A.TaskAt(log, j), g) != A.Held(A.TaskAt(log, i), g)
    && A.Held(A.TaskAt(log, n), g) == A.Held(A.TaskAt(log, i), g)
  }

  /** A lost approval stays lost, whatever is redelivered, replayed or restored. */
  lemma NeverRegained(s: Setup, w: World, key: J.TaskKey, i: nat, j: nat, n: nat, g: A.Gate)
    requires Good(s, w) && 0 < i < j <= n <= |LogOf(w.logs, key)|
    ensures A.LegalLog(LogOf(w.logs, key)) && !Regained(LogOf(w.logs, key), i, j, n, g)
  {
    hide Good, A.TaskAt, A.Held;
    WholeFacts(s, w, key);
    var log := LogOf(w.logs, key);
    if A.Held(A.TaskAt(log, i), g).Some? && A.Held(A.TaskAt(log, j), g) != A.Held(A.TaskAt(log, i), g) {
      A.NeverGrantedAgain(log, i, j, n, g);
    }
  }

  class Service {
    const setup: Setup
    var disks: map<J.TaskKey, J.Disk>
    var unhealthy: bool
    var inbox: map<Stamp, Receipt>
    var processed: map<Stamp, Outcome>
    ghost var logs: map<J.TaskKey, seq<A.Event>>

    ghost function Now(): World
      reads this
    {
      World(disks, unhealthy, inbox, processed, logs)
    }

    ghost predicate Valid()
      reads this
    {
      Good(setup, Now())
    }

    constructor (setup: Setup)
      requires Lossless(setup.codec)
      ensures Valid() && this.setup == setup && Now() == World(map[], false, map[], map[], map[])
    {
      this.setup := setup;
      disks, unhealthy, inbox, processed, logs := map[], false, map[], map[], map[];
      new;
      Nothing(setup);
    }

    static lemma Nothing(s: Setup)
      requires Lossless(s.codec)
      ensures Good(s, World(map[], false, map[], map[], map[]))
    {
      hide Kept, J.Intact, Lossless;
      var w := World(map[], false, map[], map[], map[]);
      forall key: J.TaskKey
        ensures Whole(s, w, key) && Traced(s, w, key)
      {
        EmptyWhole(s.h, s.codec, key);
        EmptyRecords(s, w, key);
      }
    }

    static lemma EmptyRecords(s: Setup, w: World, key: J.TaskKey)
      requires w.disks == map[]
      ensures Records(s, w, key) == []
    {
      EmptyWhole(s.h, s.codec, key);
    }

    /** A new process on the same state directory. */
    method Restart()
      requires Valid()
      modifies this`unhealthy
      ensures Valid() && !unhealthy && Onward(setup, old(Now()), Now()) && OnlyAdded(setup, old(Now()), Now(), {})
    {
      hide Kept, J.Intact;
      unhealthy := false;
      HealthAside(setup, old(Now()), false);
    }

    static lemma HealthAside(s: Setup, w: World, unhealthy: bool)
      requires Good(s, w)
      ensures var next := w.(unhealthy := unhealthy);
              Good(s, next) && Onward(s, w, next) && OnlyAdded(s, w, next, {})
              && forall key: J.TaskKey :: Records(s, next, key) == Records(s, w, key)
    {
      hide Kept, J.Intact;
      var next := w.(unhealthy := unhealthy);
      forall key: J.TaskKey
        ensures Whole(s, next, key) && Traced(s, next, key)
      {
        assert Whole(s, w, key) && Traced(s, w, key);
      }
    }

    method Revision(key: J.TaskKey) returns (n: nat)
      requires Valid()
      ensures n == |Records(setup, Now(), key)|
    {
      hide J.Accepted, J.SnapshotCurrent, Represents, J.Intact;
      assert Whole(setup, Now(), key);
      var read := J.Records(setup.h, key, DiskOf(disks, key));
      n := |read.value|;
    }

    /** One commit to a task's journal. */
    method Put(key: J.TaskKey, o: Offer, io: nat -> J.Publication) returns (d: Done)
      requires Valid() && Proper(o) && Permitted(setup, Now(), key, o.id)
      modifies this
      ensures Valid() && inbox == old(inbox) && processed == old(processed)
      ensures Onward(setup, old(Now()), Now()) && OnlyAdded(setup, old(Now()), Now(), {(key, o.id)})
      ensures d.In? ==> Marked(setup, Now(), key, o.id, o.event) && !old(unhealthy)
      ensures o.expected != |Records(setup, old(Now()), key)| ==>
                && Records(setup, Now(), key) == Records(setup, old(Now()), key)
                && (d.In? ==> J.Holds(Records(setup, old(Now()), key), o.id))
      ensures Clashes(setup, old(Now()), key, o) && J.ArgumentsAllowed(RequestOf(o)) ==>
                && d == Out(if old(unhealthy) then StoreFailure else EventCollision)
                && OnlyAdded(setup, old(Now()), Now(), {})
      ensures Smooth(setup, old(Now()), key, o.expected, io, []) ==> Goes(setup, old(Now()), Now(), key, o, d) && !unhealthy
    {
      hide J.Accepted, J.SnapshotCurrent, Represents, J.Intact, Rule, Permitted, Ends, Lossless, J.ArgumentsAllowed, Marks, Reply;
      ghost var before, log := Now(), LogOf(logs, key);
      assert Whole(setup, before, key);
      var disk, failed, answer;
      ghost var now;
      disk, failed, answer, now := Submit(setup.h, key, setup.encodable, setup.codec, DiskOf(disks, key), unhealthy, log, o, io);
      EndsAtMostAdds(setup.h, Records(setup, before, key), log, o,
                     Rule(setup.h, key, setup.encodable, setup.codec, Records(setup, before, key), o), unhealthy,
                     RecordsOf(setup.h, key, disk), now, failed, answer);
      CommitGood(setup, before, key, disk, failed, now, o.id);
      disks, unhealthy := disks[key := disk], failed;
      logs := logs[key := now];
      assert Now() == Committed(before, key, disk, failed, now);
      EndsMarked(setup, before, Now(), key, o, answer);
      if o.expected != |Records(setup, before, key)| {
        StaleAddsNothing(setup, before, Now(), key, o, answer);
      }
      ghost var smooth := Smooth(setup, before, key, o.expected, io, []);
      if smooth {
        GoesOn(setup, before, Now(), key, o, answer);
      }
      d := DoneOf(answer);
    }

    /** What others commit meanwhile. */
    method Interfere(fs: seq<Foreign>)
      requires Valid() && forall x <- fs :: Fair(x)
      modifies this
      ensures Valid() && inbox == old(inbox) && processed == old(processed)
      ensures Onward(setup, old(Now()), Now()) && OnlyAdded(setup, old(Now()), Now(), ForeignNames(fs))
      ensures fs == [] ==> Now() == old(Now())
    {
      hide Good, Onward, OnlyAdded, Permitted, Goes, Marked, Clashes, Smooth, Proper, OwnName, Fair;
      OnwardSelf(setup, Now());
      NothingAdded(setup, Now(), ForeignNames(fs));
      var i := 0;
      while i < |fs|
        invariant i <= |fs| && Valid() && inbox == old(inbox) && processed == old(processed)
        invariant Onward(setup, old(Now()), Now()) && OnlyAdded(setup, old(Now()), Now(), ForeignNames(fs))
        invariant fs == [] ==> Now() == old(Now())
      {
        ghost var before := Now();
        FairOffer(fs[i], before);
        assert fs[i] in fs;
        var _ := Put(fs[i].key, fs[i].offer, fs[i].io);
        OnwardTwice(setup, old(Now()), before, Now());
        AddedMore(setup, before, Now(), {(fs[i].key, fs[i].offer.id)}, ForeignNames(fs));
        AddedTwice(setup, old(Now()), before, Now(), ForeignNames(fs));
        i := i + 1;
      }
    }

    lemma FairOffer(f: Foreign, w: World)
      requires Fair(f)
      ensures Proper(f.offer) && Permitted(setup, w, f.key, f.offer.id)
    {
    }

    /** One commit of the processor, prepared on a revision read before others had
        their turn. */
    method Attempt(key: J.TaskKey, offer: Offer, revision: nat, io: nat -> J.Publication, others: seq<Foreign>) returns (d: Done)
      requires Valid() && Proper(offer) && Permitted(setup, Now(), key, offer.id) && forall x <- others :: Fair(x)
      modifies this
      ensures Valid() && inbox == old(inbox) && processed == old(processed)
      ensures Onward(setup, old(Now()), Now())
      ensures OnlyAdded(setup, old(Now()), Now(), ForeignNames(others) + {(key, offer.id)})
      ensures d.In? ==> Marked(setup, Now(), key, offer.id, offer.event)
      ensures Clashes(setup, old(Now()), key, offer) && J.ArgumentsAllowed(RequestOf(offer)) ==>
                && (d == Out(EventCollision) || d == Out(StoreFailure))
                && OnlyAdded(setup, old(Now()), Now(), ForeignNames(others))
      ensures Clashes(setup, old(Now()), key, offer) && J.ArgumentsAllowed(RequestOf(offer)) && others == [] && !old(unhealthy) ==>
                d == Out(EventCollision)
      ensures Smooth(setup, old(Now()), key, revision, io, others) ==> Goes(setup, old(Now()), Now(), key, offer, d) && !unhealthy
    {
      hide Good, Onward, OnlyAdded, Permitted, Goes, Marked, Clashes, Proper, OwnName, Fair, J.ArgumentsAllowed, ForeignNames;
      var o := offer.(expected := revision);
      ghost var before := Now();
      Interfere(others);
      ghost var between := Now();
      StillPermitted(setup, before, between, key, offer.id);
      OfferSame(setup, before, key, offer, revision);
      OfferSame(setup, between, key, offer, revision);
      if Clashes(setup, before, key, offer) {
        ClashesLater(setup, before, between, key, offer);
      }
      d := Put(key, o, io);
      OnwardTwice(setup, before, between, Now());
      AddedMore(setup, before, between, ForeignNames(others), ForeignNames(others) + {(key, offer.id)});
      AddedMore(setup, between, Now(), {(key, offer.id)}, ForeignNames(others) + {(key, offer.id)});
      AddedTwice(setup, before, between, Now(), ForeignNames(others) + {(key, offer.id)});
      if Clashes(setup, before, key, offer) && J.ArgumentsAllowed(RequestOf(offer)) {
        AddedMore(setup, between, Now(), {}, ForeignNames(others));
        AddedTwice(setup, before, between, Now(), ForeignNames(others));
      }
      if others == [] {
        GoesSame(setup, before, Now(), key, offer, revision, d);
      }
    }

    static lemma StillPermitted(s: Setup, a: World, b: World, key: J.TaskKey, id: string)
      requires Good(s, a) && Good(s, b) && Permitted(s, a, key, id) && Onward(s, a, b)
      ensures Permitted(s, b, key, id)
    {
      hide Good, NamedBy, OwnName;
    }

    static lemma OfferSame(s: Setup, w: World, key: J.TaskKey, o: Offer, revision: nat)
      requires Good(s, w)
      ensures var p := o.(expected := revision);
              && (Clashes(s, w, key, p) <==> Clashes(s, w, key, o)) && (Proper(p) <==> Proper(o))
              && (J.ArgumentsAllowed(RequestOf(p)) <==> J.ArgumentsAllowed(RequestOf(o)))
    {
      hide Good, Records, J.IsIdentifier;
    }

    static lemma GoesSame(s: Setup, a: World, b: World, key: J.TaskKey, o: Offer, revision: nat, d: Done)
      requires Good(s, a) && Good(s, b)
      ensures Goes(s, a, b, key, o.(expected := revision), d) <==> Goes(s, a, b, key, o, d)
    {
      hide Good, Records, Marks, LogOf, Reply, AfterOffer;
      OfferRevision(s.h, BriefOf(s, a, key), o, revision);
    }

    /** A delivery is stored once; the same delivery again is acknowledged, and a
        different one under its identity is refused. */
    method Accept(delivery: Stamp, body: string, metadata: Metadata, p: J.Publication) returns (r: Received)
      requires Valid()
      modifies this`inbox, this`unhealthy
      ensures Valid() && Onward(setup, old(Now()), Now()) && OnlyAdded(setup, old(Now()), Now(), {})
      ensures old(unhealthy) ==> r == Unstored(StoreFailure) && inbox == old(inbox) && unhealthy
      ensures !old(unhealthy) && delivery in old(inbox) ==>
                && inbox == old(inbox) && !unhealthy
                && r == if old(inbox)[delivery] == Receipt(body, metadata) then Stored(old(inbox)[delivery], true)
                        else Unstored(WebhookCollision)
      ensures !old(unhealthy) && delivery !in old(inbox) ==>
                && inbox == (if p.Visible() then old(inbox)[delivery := Receipt(body, metadata)] else old(inbox))
                && unhealthy == !p.Done?
                && r == if p.Done? then Stored(Receipt(body, metadata), false) else Unstored(StoreFailure)
    {
      hide Good, Onward, OnlyAdded;
      var receipt := Receipt(body, metadata);
      HealthAside(setup, Now(), unhealthy);
      if unhealthy {
        return Unstored(StoreFailure);
      }
      if delivery in inbox {
        return if inbox[delivery] == receipt then Stored(inbox[delivery], true) else Unstored(WebhookCollision);
      }
      InboxAside(setup, Now(), delivery, receipt, !p.Done?);
      HealthAside(setup, Now(), !p.Done?);
      if p.Visible() {
        inbox := inbox[delivery := receipt];
      }
      if !p.Done? {
        unhealthy := true;
        return Unstored(StoreFailure);
      }
      r := Stored(receipt, false);
    }

    static lemma InboxAside(s: Setup, w: World, d: Stamp, receipt: Receipt, unhealthy: bool)
      requires Good(s, w) && d !in w.inbox
      ensures var next := w.(inbox := w.inbox[d := receipt], unhealthy := unhealthy);
              Good(s, next) && Onward(s, w, next) && OnlyAdded(s, w, next, {})
    {
      hide Kept, J.Intact, NamedBy;
      var next := w.(inbox := w.inbox[d := receipt], unhealthy := unhealthy);
      forall key: J.TaskKey
        ensures Whole(s, next, key) && Traced(s, next, key)
      {
        assert Whole(s, w, key) && Traced(s, w, key);
        assert Records(s, next, key) == Records(s, w, key);
        forall r <- Records(s, w, key), e: Stamp | NamedBy(r.body.eventId, e)
          ensures Sent(s, next.inbox, e, key)
        {
          assert Sent(s, w.inbox, e, key);
        }
      }
    }

    /** The stored deliveries that have no marker yet. */
    method Pending() returns (deliveries: set<Stamp>)
      ensures deliveries == set d | d in inbox && d !in processed
    {
      deliveries := {};
      var todo := inbox.Keys;
      while todo != {}
        invariant todo <= inbox.Keys && deliveries == set d | d in inbox.Keys - todo && d !in processed
        decreases |todo|
      {
        var d :| d in todo;
        todo := todo - {d};
        if d !in processed {
          deliveries := deliveries + {d};
        }
      }
    }

    /** The marker of a delivery is written once and never changed. */
    method MarkProcessed(delivery: Stamp, outcome: Outcome, p: J.Publication) returns (r: Processed)
      requires Valid() && delivery in inbox
      modifies this`processed, this`unhealthy
      ensures Valid() && Onward(setup, old(Now()), Now()) && OnlyAdded(setup, old(Now()), Now(), {})
      ensures r.Settled? ==> r.outcome == outcome && delivery in processed && processed[delivery] == outcome
      ensures processed == old(processed) || (processed == old(processed)[delivery := outcome] && delivery !in old(processed))
      ensures delivery in old(processed) ==>
                && processed == old(processed)
                && (r == Settled(outcome) <==> old(processed)[delivery] == outcome && !old(unhealthy))
      ensures delivery !in old(processed) ==>
                && (r == Settled(outcome) <==> !old(unhealthy) && p.Done?)
                && (!old(unhealthy) && p.Visible() ==> delivery in processed)
                && (p.Done? ==> unhealthy == old(unhealthy))
                && (!p.Visible() ==> processed == old(processed))
    {
      hide Good, Onward, OnlyAdded;
      HealthAside(setup, Now(), unhealthy);
      if unhealthy {
        return Raised(StoreFailure);
      }
      if delivery in processed {
        return if processed[delivery] == outcome then Settled(outcome) else Raised(WebhookCollision);
      }
      MarkerAside(setup, Now(), delivery, outcome, !p.Done?);
      HealthAside(setup, Now(), !p.Done?);
      if p.Visible() {
        processed := processed[delivery := outcome];
      }
      if !p.Done? {
        unhealthy := true;
        return Raised(StoreFailure);
      }
      r := Settled(outcome);
    }

    static lemma MarkerAside(s: Setup, w: World, d: Stamp, outcome: Outcome, unhealthy: bool)
      requires Good(s, w) && d !in w.processed
      ensures var next := w.(processed := w.processed[d := outcome], unhealthy := unhealthy);
              Good(s, next) && Onward(s, w, next) && OnlyAdded(s, w, next, {})
    {
      hide Kept, J.Intact, NamedBy;
      var next := w.(processed := w.processed[d := outcome], unhealthy := unhealthy);
      forall key: J.TaskKey
        ensures Whole(s, next, key) && Traced(s, next, key)
      {
        assert Whole(s, w, key) && Traced(s, w, key);
      }
    }

    /** The command of a comment, observed and parsed before anything is committed. */
    method Command(key: J.TaskKey, comment: nat, revision: nat, f: Facts) returns (d: Done)
      requires Valid() && AllFair(f)
      modifies this
      ensures Valid() && inbox == old(inbox) && processed == old(processed) && Onward(setup, old(Now()), Now())
      ensures OnlyAdded(setup, old(Now()), Now(), ForeignNames(f.others(1)) + {(key, CommentName(comment))})
      ensures var fault := CommentFault(f.follow, comment, f.parsed);
              if fault.Some? then d == Out(fault.value) && Now() == old(Now())
              else
                var o := CommandOffer(comment, f.parsed.command, f.follow, f.time);
                && (d.In? ==> Marked(setup, Now(), key, o.id, o.event))
                && (Smooth(setup, old(Now()), key, revision, f.io(1), f.others(1)) ==>
                      Goes(setup, old(Now()), Now(), key, o, d) && !unhealthy)
    {
      hide Good, Onward, OnlyAdded, Goes, Marked, Clashes, Fair, Smooth, J.ArgumentsAllowed, CommentName, Permitted, ForeignNames;
      var fault := CommentFault(f.follow, comment, f.parsed);
      if fault.Some? {
        OnwardSelf(setup, Now());
        NothingAdded(setup, Now(), ForeignNames(f.others(1)) + {(key, CommentName(comment))});
        return Out(fault.value);
      }
      CommentPermitted(setup, Now(), key, comment);
      d := Attempt(key, CommandOffer(comment, f.parsed.command, f.follow, f.time), revision, f.io(1), f.others(1));
    }

    static lemma CommentPermitted(s: Setup, w: World, key: J.TaskKey, comment: nat)
      ensures Permitted(s, w, key, CommentName(comment))
    {
      CommentsOwnNothing(comment);
    }

    static lemma OwnPermitted(s: Setup, w: World, key: J.TaskKey, d: Stamp)
      requires Sent(s, w.inbox, d, key)
      ensures Permitted(s, w, key, SourceName(d)) && Permitted(s, w, key, ReconciledName(d))
    {
      hide SourceName, ReconciledName;
      assert NamedBy(SourceName(d), d) && NamedBy(ReconciledName(d), d);
    }

    /** The approvals are checked against what is observed now. */
    method Reconcile(delivery: Stamp, key: J.TaskKey, v: W.View, time: string, revision: nat, io: nat -> J.Publication,
                     others: seq<Foreign>) returns (d: Done)
      requires Valid() && Sent(setup, inbox, delivery, key) && forall x <- others :: Fair(x)
      modifies this
      ensures Valid() && inbox == old(inbox) && processed == old(processed) && Onward(setup, old(Now()), Now())
      ensures OnlyAdded(setup, old(Now()), Now(), ForeignNames(others) + {(key, ReconciledName(delivery))})
      ensures d.In? ==> Marked(setup, Now(), key, ReconciledName(delivery), RECONCILED)
      ensures Smooth(setup, old(Now()), key, revision, io, others) ==>
                Goes(setup, old(Now()), Now(), key, ReconcileOffer(delivery, v, time), d) && !unhealthy
    {
      hide Good, Onward, OnlyAdded, Goes, Marked, Clashes, Fair, Smooth, J.ArgumentsAllowed, Permitted, ForeignNames, SourceName,
           ReconciledName, Sent;
      OwnPermitted(setup, Now(), key, delivery);
      d := Attempt(key, ReconcileOffer(delivery, v, time), revision, io, others);
    }

    /** The source record comes first; what the Issue says now is its content. */
    method ObserveSource(delivery: Stamp, key: J.TaskKey, f: Facts) returns (d: Done)
      requires Valid() && Sent(setup, inbox, delivery, key) && AllFair(f)
      modifies this
      ensures Valid() && inbox == old(inbox) && processed == old(processed) && Onward(setup, old(Now()), Now())
      ensures OnlyAdded(setup, old(Now()), Now(), ForeignNames(f.others(0)) + {(key, SourceName(delivery))})
      ensures match f.look
              case NotHuman => d == Out(IssueActor) && Now() == old(Now())
              case Unseen => d == Out(NotObserved) && Now() == old(Now())
              case Seen =>
                var o := SourceOffer(setup.h, delivery, f.source, f.time);
                && (d.In? ==> Marked(setup, Now(), key, o.id, o.event))
                && (Clashes(setup, old(Now()), key, o) ==>
                      && (d == Out(EventCollision) || d == Out(StoreFailure))
                      && OnlyAdded(setup, old(Now()), Now(), ForeignNames(f.others(0)))
                      && (f.others(0) == [] && !old(unhealthy) ==> d == Out(EventCollision)))
                && (Smooth(setup, old(Now()), key, |Records(setup, old(Now()), key)|, f.io(0), f.others(0)) ==>
                      Goes(setup, old(Now()), Now(), key, o, d) && !unhealthy)
    {
      hide Good, Onward, OnlyAdded, Goes, Marked, Clashes, Fair, Smooth, J.ArgumentsAllowed, Permitted, ForeignNames, SourceName,
           Sent, Records;
      if !f.look.Seen? {
        OnwardSelf(setup, Now());
        NothingAdded(setup, Now(), ForeignNames(f.others(0)) + {(key, SourceName(delivery))});
        return Out(if f.look.NotHuman? then IssueActor else NotObserved);
      }
      OwnPermitted(setup, Now(), key, delivery);
      SourceArguments(setup.h, delivery, f.source, f.time);
      var revision := Revision(key);
      d := Attempt(key, SourceOffer(setup.h, delivery, f.source, f.time), revision, f.io(0), f.others(0));
    }

    static lemma SourceArguments(h: J.Hash, d: Stamp, v: W.View, time: string)
      ensures J.ArgumentsAllowed(RequestOf(SourceOffer(h, d, v, time)))
    {
      OwnNames(d);
    }

    /** A reconciliation as the last thing a replay commits. */
    method FollowReconcile(delivery: Stamp, key: J.TaskKey, revision: nat, f: Facts, done: Status, refused: Status)
      returns (r: Processed)
      requires Valid() && Sent(setup, inbox, delivery, key) && AllFair(f)
      requires done.SourceAndApprovalsReconciled? || done.ApprovalsReconciled?
      requires refused.SourceObservedReconcileRejected? || refused.ReconcileRejected?
      modifies this
      ensures Valid() && inbox == old(inbox) && processed == old(processed) && Onward(setup, old(Now()), Now())
      ensures OnlyAdded(setup, old(Now()), Now(), Allowed(setup, delivery, inbox[delivery], f))
      ensures r.Settled? ==> r.outcome.status == done || r.outcome.status == refused
      ensures r.Settled? && r.outcome.status == done ==> Marked(setup, Now(), key, ReconciledName(delivery), RECONCILED)
      ensures r.Settled? ==>
                && r.outcome.rejection.None? && (r.outcome.reconcileRejection.Some? <==> r.outcome.status == refused)
                && (r.outcome.reconcileRejection.Some? ==> Final(r.outcome.reconcileRejection.value))
      ensures Calm(setup, old(Now()), key, revision, f) ==>
                BriefOf(setup, Now(), key) ==
                  AfterOffer(setup.h, BriefOf(setup, old(Now()), key), ReconcileOffer(delivery, f.follow, f.time))
      ensures Calm(setup, old(Now()), key, revision, f) ==>
                Exactly(setup, Now(), ReconcileSettles(setup.h, BriefOf(setup, old(Now()), key), delivery, f.follow, f.time), r)
    {
      hide Good, Onward, OnlyAdded, Marked, Fair, Smooth, ForeignNames, SourceName, ReconciledName, Records, Calm, BriefOf, Reply,
           AfterOffer;
      ghost var calm := Calm(setup, Now(), key, revision, f);
      if calm {
        CalmSmooth(setup, Now(), key, revision, f, 1);
      }
      AllowedNames(setup, delivery, inbox[delivery], f, key);
      ghost var before := Now();
      var d := Reconcile(delivery, key, f.follow, f.time, revision, f.io(1), f.others(1));
      AddedMore(setup, before, Now(), ForeignNames(f.others(1)) + {(key, ReconciledName(delivery))},
                Allowed(setup, delivery, inbox[delivery], f));
      if d.In? {
        return Settled(Outcome(done, Some(d.revision), None, None));
      }
      if !IsDeterministic(d.fault) {
        return Raised(d.fault);
      }
      FinalExactly(d.fault);
      r := Settled(Outcome(refused, Some(revision), None, Some(d.fault)));
    }

    static lemma CommandSettledBy(s: Setup, a: World, b: World, key: J.TaskKey, delivery: Stamp, comment: nat, f: Facts, d: Done)
      requires Good(s, a) && Good(s, b)
      requires var fault := CommentFault(f.follow, comment, f.parsed);
               if fault.Some? then d == Out(fault.value)
               else Goes(s, a, b, key, CommandOffer(comment, f.parsed.command, f.follow, f.time), d)
      ensures CommandSettles(s.h, BriefOf(s, a, key), delivery, comment, f) <==>
                d.In? || RejectionSettles(s.h, BriefOf(s, a, key), delivery, d.fault, f)
      ensures d.Out? ==> CommentFault(f.follow, comment, f.parsed).None? ==> BriefOf(s, b, key) == BriefOf(s, a, key)
      ensures d.Out? ==>
                AfterCommand(s.h, BriefOf(s, a, key), delivery, comment, f) ==
                  AfterRejection(s.h, BriefOf(s, a, key), delivery, d.fault, f)
      ensures d.In? ==> BriefOf(s, b, key) == AfterCommand(s.h, BriefOf(s, a, key), delivery, comment, f)
    {
      hide Good, BriefOf, Reply, RejectionSettles, CommentFault, CommandOffer, AfterRejection;
    }

    /** A rejection that tells of a revocation has the approvals checked. */
    method FollowRejection(delivery: Stamp, key: J.TaskKey, fault: Fault, revision: nat, f: Facts) returns (r: Processed)
      requires Valid() && Sent(setup, inbox, delivery, key) && AllFair(f)
      modifies this
      ensures Valid() && inbox == old(inbox) && processed == old(processed) && Onward(setup, old(Now()), Now())
      ensures OnlyAdded(setup, old(Now()), Now(), Allowed(setup, delivery, inbox[delivery], f))
      ensures r.Settled? ==>
                && r.outcome.status.CommandRejected? && r.outcome.rejection == Some(fault) && Final(fault)
                && (r.outcome.reconcileRejection.Some? ==> Final(r.outcome.reconcileRejection.value))
                && (NeedsReconcile(fault) ==>
                      r.outcome.reconcileRejection.Some? || Marked(setup, Now(), key, ReconciledName(delivery), RECONCILED))
      ensures Undisturbed(setup, f) && !old(unhealthy) ==>
                BriefOf(setup, Now(), key) == AfterRejection(setup.h, BriefOf(setup, old(Now()), key), delivery, fault, f)
      ensures Undisturbed(setup, f) && !old(unhealthy) ==>
                Exactly(setup, Now(), RejectionSettles(setup.h, BriefOf(setup, old(Now()), key), delivery, fault, f), r)
    {
      hide Good, Onward, OnlyAdded, Marked, Fair, Smooth, ForeignNames, SourceName, ReconciledName, Records, BriefOf, Reply, AfterOffer,
           Undisturbed;
      ghost var before := Now();
      ghost var allowed := Allowed(setup, delivery, inbox[delivery], f);
      OnwardSelf(setup, before);
      NothingAdded(setup, before, allowed);
      FinalExactly(fault);
      if !IsDeterministic(fault) {
        return Raised(fault);
      }
      if !NeedsReconcile(fault) {
        return Settled(Outcome(CommandRejected, Some(revision), Some(fault), None));
      }
      AllowedNames(setup, delivery, inbox[delivery], f, key);
      var current := Revision(key);
      if Calm(setup, before, key, current, f) {
        CalmSmooth(setup, before, key, current, f, 2);
      }
      var d := Reconcile(delivery, key, f.last, f.time, current, f.io(2), f.others(2));
      AddedMore(setup, before, Now(), ForeignNames(f.others(2)) + {(key, ReconciledName(delivery))}, allowed);
      if d.In? {
        return Settled(Outcome(CommandRejected, Some(d.revision), Some(fault), None));
      }
      FinalExactly(d.fault);
      if !IsDeterministic(d.fault) {
        return Raised(d.fault);
      }
      r := Settled(Outcome(CommandRejected, Some(current), Some(fault), Some(d.fault)));
    }

    /** The command of a new comment. */
    method FollowCommand(delivery: Stamp, key: J.TaskKey, comment: nat, revision: nat, f: Facts) returns (r: Processed)
      requires Valid() && Sent(setup, inbox, delivery, key) && AllFair(f) && inbox[delivery].metadata.comment == Some(comment)
      modifies this
      ensures Valid() && inbox == old(inbox) && processed == old(processed) && Onward(setup, old(Now()), Now())
      ensures OnlyAdded(setup, old(Now()), Now(), Allowed(setup, delivery, inbox[delivery], f))
      ensures r.Settled? ==> r.outcome.status.CommandApplied? || r.outcome.status.CommandRejected?
      ensures r.Settled? && r.outcome.status.CommandApplied? ==>
                && AppliedCommand(setup, Now(), key, inbox[delivery], f)
                && r.outcome.rejection.None? && r.outcome.reconcileRejection.None?
      ensures r.Settled? && r.outcome.status.CommandRejected? ==>
                && r.outcome.rejection.Some? && RejectedCommand(setup, Now(), key, delivery, inbox[delivery], f, r.outcome)
                && Final(r.outcome.rejection.value)
                && (r.outcome.reconcileRejection.Some? ==> Final(r.outcome.reconcileRejection.value))
      ensures Calm(setup, old(Now()), key, revision, f) ==>
                BriefOf(setup, Now(), key) == AfterCommand(setup.h, BriefOf(setup, old(Now()), key), delivery, comment, f)
      ensures Calm(setup, old(Now()), key, revision, f) ==>
                Exactly(setup, Now(), CommandSettles(setup.h, BriefOf(setup, old(Now()), key), delivery, comment, f), r)
    {
      hide Good, Onward, OnlyAdded, Marked, Fair, Smooth, ForeignNames, SourceName, ReconciledName, CommentName, Records,
           BriefOf, Reply, CommandSettles, RejectionSettles, Allowed, Undisturbed, AfterCommand, AfterRejection, Revealing,
           NeedsReconcile, CommentFault, Final;
      ghost var before, calm := Now(), Calm(setup, Now(), key, revision, f);
      ghost var allowed := Allowed(setup, delivery, inbox[delivery], f);
      if calm {
        CalmSmooth(setup, before, key, revision, f, 1);
      }
      AllowedNames(setup, delivery, inbox[delivery], f, key);
      var d := Command(key, comment, revision, f);
      AddedMore(setup, before, Now(), ForeignNames(f.others(1)) + {(key, CommentName(comment))}, allowed);
      if calm {
        CommandSettledBy(setup, before, Now(), key, delivery, comment, f, d);
      }
      if d.In? {
        return Settled(Outcome(CommandApplied, Some(d.revision), None, None));
      }
      ghost var between := Now();
      r := FollowRejection(delivery, key, d.fault, revision, f);
      if Revealing(f.follow, comment, d.fault) {
        RevealingReconciles(f.follow, comment, f.parsed, d.fault);
      }
      AddedTwice(setup, before, between, Now(), allowed);
      OnwardTwice(setup, before, between, Now());
    }

    /** What follows an observed source. */
    method Follow(delivery: Stamp, key: J.TaskKey, revision: nat, f: Facts) returns (r: Processed)
      requires Valid() && Sent(setup, inbox, delivery, key) && AllFair(f)
      requires inbox[delivery].metadata.kind.Issues? || inbox[delivery].metadata.kind.IssueComment?
      requires Marked(setup, Now(), key, SourceName(delivery), SourceEvent(setup.h, f.source.issue))
      modifies this
      ensures Valid() && inbox == old(inbox) && processed == old(processed) && Onward(setup, old(Now()), Now())
      ensures OnlyAdded(setup, old(Now()), Now(), Allowed(setup, delivery, inbox[delivery], f))
      ensures r.Settled? ==> Contributed(setup, Now(), delivery, inbox[delivery], f, r.outcome)
      ensures Calm(setup, old(Now()), key, revision, f) ==>
                BriefOf(setup, Now(), key) ==
                  AfterFollowUp(setup.h, BriefOf(setup, old(Now()), key), delivery, inbox[delivery].metadata, f)
      ensures Calm(setup, old(Now()), key, revision, f) ==>
                Exactly(setup, Now(), FollowUpSettles(setup.h, BriefOf(setup, old(Now()), key), delivery, inbox[delivery].metadata, f), r)
    {
      hide Good, Onward, OnlyAdded, Marked, AppliedCommand, RejectedCommand, SourceName, ReconciledName, Records, BriefOf,
           ReconcileSettles, CommandSettles, Allowed, Undisturbed, SourceEvent, AfterCommand, AfterOffer, Final;
      ghost var before := Now();
      var m := inbox[delivery].metadata;
      OnwardSelf(setup, before);
      NothingAdded(setup, before, Allowed(setup, delivery, inbox[delivery], f));
      if m.kind.Issues? {
        if m.action.Closed? {
          return Settled(Outcome(SourceObserved, Some(revision), None, None));
        }
        r := FollowReconcile(delivery, key, revision, f, SourceAndApprovalsReconciled, SourceObservedReconcileRejected);
      } else if m.comment.None? {
        return Raised(WebhookProcessor);
      } else if m.action.Created? {
        r := FollowCommand(delivery, key, m.comment.value, revision, f);
      } else {
        r := FollowReconcile(delivery, key, revision, f, ApprovalsReconciled, ReconcileRejected);
      }
      MarkedLater(setup, before, Now(), key, SourceName(delivery), SourceEvent(setup.h, f.source.issue));
    }

    static lemma SourceSettledBy(s: Setup, a: World, b: World, key: J.TaskKey, delivery: Stamp, m: Metadata, f: Facts, d: Done)
      requires Good(s, a) && Good(s, b)
      requires match f.look
               case NotHuman => d == Out(IssueActor) && a == b
               case Unseen => d == Out(NotObserved) && a == b
               case Seen => Goes(s, a, b, key, SourceOffer(s.h, delivery, f.source, f.time), d)
      ensures SourceSettles(s.h, BriefOf(s, a, key), delivery, m, f) <==>
                if d.In? then FollowUpSettles(s.h, BriefOf(s, b, key), delivery, m, f) else IsDeterministic(d.fault)
      ensures AfterReplay(s.h, BriefOf(s, a, key), delivery, m, f) ==
                if d.In? then AfterFollowUp(s.h, BriefOf(s, b, key), delivery, m, f) else BriefOf(s, b, key)
      ensures d.In? ==> d.revision == |Records(s, b, key)|
    {
      hide Good, BriefOf, Reply, AfterOffer, FollowUpSettles, AfterFollowUp, SourceOffer;
      RefusedAddsNothing(s.h, BriefOf(s, a, key), SourceOffer(s.h, delivery, f.source, f.time));
    }

    static lemma GoesIn(s: Setup, a: World, b: World, key: J.TaskKey, o: Offer, d: Done)
      requires Good(s, a) && Good(s, b) && Goes(s, a, b, key, o, d)
      ensures Passes(Reply(s.h, BriefOf(s, a, key), o)) ==> d.In?
    {
      hide Good, BriefOf, Reply, AfterOffer, Records;
    }

    /** The source, and what follows it. */
    method ProcessTask(delivery: Stamp, key: J.TaskKey, f: Facts) returns (r: Processed)
      requires Valid() && Sent(setup, inbox, delivery, key) && AllFair(f) && AboutTask(setup, inbox[delivery])
      modifies this
      ensures Valid() && inbox == old(inbox) && processed == old(processed) && Onward(setup, old(Now()), Now())
      ensures OnlyAdded(setup, old(Now()), Now(), Allowed(setup, delivery, inbox[delivery], f))
      ensures r.Settled? ==> Contributed(setup, Now(), delivery, inbox[delivery], f, r.outcome)
      ensures Undisturbed(setup, f) && !old(unhealthy) ==>
                BriefOf(setup, Now(), key) ==
                  AfterReplay(setup.h, BriefOf(setup, old(Now()), key), delivery, inbox[delivery].metadata, f)
      ensures Undisturbed(setup, f) && !old(unhealthy) ==>
                Exactly(setup, Now(), SourceSettles(setup.h, BriefOf(setup, old(Now()), key), delivery, inbox[delivery].metadata, f), r)
      ensures SourceChanged(setup, old(Now()), delivery, inbox[delivery], f) ==>
                && (r == Raised(EventCollision) || r == Raised(StoreFailure))
                && OnlyAdded(setup, old(Now()), Now(), ForeignNames(f.others(0)))
                && (f.others(0) == [] && !old(unhealthy) ==> r == Raised(EventCollision))
      ensures SourceComesIn(setup, old(Now()), delivery, inbox[delivery], f) ==>
                SourceIsIn(setup, Now(), delivery, inbox[delivery], f)
    {
      hide Good, Onward, OnlyAdded, Marked, AppliedCommand, Fair, Smooth, ForeignNames, SourceName, ReconciledName, CommentName, Records,
           BriefOf, Reply, AfterOffer, FollowUpSettles, AfterFollowUp, Undisturbed, SourceEvent, Allowed, Clashes, AllFair,
           RejectedCommand, Final, SourceSettles, AfterReplay, Goes;
      ghost var before := Now();
      ghost var allowed := Allowed(setup, delivery, inbox[delivery], f);
      ghost var calm := Calm(setup, before, key, |Records(setup, before, key)|, f);
      if calm {
        CalmSmooth(setup, before, key, |Records(setup, before, key)|, f, 0);
      }
      AllowedNames(setup, delivery, inbox[delivery], f, key);
      var d := ObserveSource(delivery, key, f);
      AddedMore(setup, before, Now(), ForeignNames(f.others(0)) + {(key, SourceName(delivery))}, allowed);
      if SourceComesIn(setup, before, delivery, inbox[delivery], f) {
        GoesIn(setup, before, Now(), key, SourceOffer(setup.h, delivery, f.source, f.time), d);
      }
      if calm {
        SourceSettledBy(setup, before, Now(), key, delivery, inbox[delivery].metadata, f, d);
      }
      if d.Out? {
        FinalExactly(d.fault);
        if !IsDeterministic(d.fault) {
          return Raised(d.fault);
        }
        return Settled(Outcome(SourceRejected, None, Some(d.fault), None));
      }
      ghost var between := Now();
      r := Follow(delivery, key, d.revision, f);
      AddedTwice(setup, before, between, Now(), allowed);
      OnwardTwice(setup, before, between, Now());
      MarkedLater(setup, between, Now(), key, SourceName(delivery), SourceEvent(setup.h, f.source.issue));
    }

    /** Everything a replay does before it marks the delivery. */
    method Work(delivery: Stamp, f: Facts) returns (r: Processed)
      requires Valid() && delivery in inbox && AllFair(f)
      modifies this
      ensures Valid() && inbox == old(inbox) && processed == old(processed) && Onward(setup, old(Now()), Now())
      ensures OnlyAdded(setup, old(Now()), Now(), Allowed(setup, delivery, inbox[delivery], f))
      ensures r.Settled? ==> Contributed(setup, Now(), delivery, inbox[delivery], f, r.outcome)
      ensures Undisturbed(setup, f) && !old(unhealthy) && AboutTask(setup, inbox[delivery]) ==>
                Replayed(setup, old(Now()), Now(), delivery, inbox[delivery], f)
      ensures Undisturbed(setup, f) && !old(unhealthy) ==>
                Exactly(setup, Now(), Completes(setup, old(Now()), delivery, inbox[delivery], f), r)
      ensures SourceChanged(setup, old(Now()), delivery, inbox[delivery], f) ==>
                && (r == Raised(EventCollision) || r == Raised(StoreFailure))
                && OnlyAdded(setup, old(Now()), Now(), ForeignNames(f.others(0)))
                && (f.others(0) == [] && !old(unhealthy) ==> r == Raised(EventCollision))
      ensures SourceComesIn(setup, old(Now()), delivery, inbox[delivery], f) ==>
                SourceIsIn(setup, Now(), delivery, inbox[delivery], f)
    {
      hide Good, Onward, OnlyAdded, SourceIsIn, Smooth, Clashes, Allowed, BriefOf, SourceSettles, Undisturbed, Marked, Reply,
           AppliedCommand, RejectedCommand, AfterReplay, Recorded;
      var m := inbox[delivery].metadata;
      OnwardSelf(setup, Now());
      NothingAdded(setup, Now(), Allowed(setup, delivery, inbox[delivery], f));
      if !(m.kind.Issues? || m.kind.IssueComment?) {
        if m.kind.Unsupported? || !f.scoped {
          return Raised(WebhookProcessor);
        }
        return Settled(Outcome(ScopeReconciled, None, None, None));
      }
      if m.repository.None? || m.repository.value !in setup.repositories {
        return Settled(Outcome(IgnoredUnconfigured, None, None, None));
      }
      if !setup.repositories[m.repository.value] {
        return Settled(Outcome(IgnoredDisabled, None, None, None));
      }
      if m.issue.None? {
        return Raised(WebhookProcessor);
      }
      var key := J.TaskKey(setup.instance, m.repository.value, m.issue.value);
      assert KeyOf(setup, inbox[delivery]) == Some(key);
      r := ProcessTask(delivery, key, f);
    }

    static lemma MarksIt(s: Setup, f: Facts)
      ensures Undisturbed(s, f) ==> f.mark.Done?
    {
    }

    static lemma MarkerKeepsReplay(s: Setup, a: World, b: World, c: World, d: Stamp, r: Receipt, f: Facts)
      requires Good(s, a) && Good(s, b) && Good(s, c) && AboutTask(s, r) && c.disks == b.disks && c.logs == b.logs
      requires Replayed(s, a, b, d, r, f)
      ensures Replayed(s, a, c, d, r, f)
    {
      hide Good, AfterReplay, J.Accepted;
    }

    /** One replay of a stored delivery, from the start, however far an earlier one
        came. */
    method Process(delivery: Stamp, f: Facts) returns (r: Processed)
      requires Valid() && delivery in inbox && AllFair(f)
      modifies this
      ensures Valid() && inbox == old(inbox) && Onward(setup, old(Now()), Now())
      ensures OnlyAdded(setup, old(Now()), Now(), Allowed(setup, delivery, inbox[delivery], f))
      ensures r.Settled? ==> delivery in processed && processed[delivery] == r.outcome
      ensures r.Settled? ==> Contributed(setup, Now(), delivery, inbox[delivery], f, r.outcome)
      ensures processed - {delivery} == old(processed) - {delivery}
      ensures !f.mark.Visible() ==> processed == old(processed)
      ensures Undisturbed(setup, f) && !old(unhealthy) && AboutTask(setup, inbox[delivery]) ==>
                Replayed(setup, old(Now()), Now(), delivery, inbox[delivery], f)
      ensures Undisturbed(setup, f) && !old(unhealthy) && delivery !in old(processed) ==>
                && !unhealthy
                && (r.Settled? <==> Completes(setup, old(Now()), delivery, inbox[delivery], f))
                && (delivery in processed <==> r.Settled?)
      ensures SourceChanged(setup, old(Now()), delivery, inbox[delivery], f) ==>
                && (r == Raised(EventCollision) || r == Raised(StoreFailure)) && processed == old(processed)
                && OnlyAdded(setup, old(Now()), Now(), ForeignNames(f.others(0)))
                && (f.others(0) == [] && !old(unhealthy) ==> r == Raised(EventCollision))
      ensures SourceComesIn(setup, old(Now()), delivery, inbox[delivery], f) ==>
                SourceIsIn(setup, Now(), delivery, inbox[delivery], f)
    {
      hide Good, Onward, OnlyAdded, SourceChanged, SourceComesIn, Completes, Allowed, Marked, AppliedCommand, AllFair, KeyOf,
           SourceName, ReconciledName, SourceEvent, Replayed, Contributed, Undisturbed;
      ghost var before := Now();
      ghost var allowed := Allowed(setup, delivery, inbox[delivery], f);
      r := Work(delivery, f);
      if r.Raised? {
        return;
      }
      ghost var between := Now();
      var outcome := r.outcome;
      r := MarkProcessed(delivery, outcome, f.mark);
      OnwardTwice(setup, before, between, Now());
      AddedMore(setup, between, Now(), {}, allowed);
      AddedTwice(setup, before, between, Now(), allowed);
      MarksIt(setup, f);
      if Undisturbed(setup, f) && !before.unhealthy && AboutTask(setup, inbox[delivery]) {
        MarkerKeepsReplay(setup, before, between, Now(), delivery, inbox[delivery], f);
      }
      if SourceIsIn(setup, between, delivery, inbox[delivery], f) {
        KeptSource(setup, between, Now(), delivery, inbox[delivery], f);
      }
      KeptContribution(setup, between, Now(), delivery, inbox[delivery], f, outcome);
    }

    static lemma KeptSource(s: Setup, a: World, b: World, d: Stamp, r: Receipt, f: Facts)
      requires Good(s, a) && Good(s, b) && Onward(s, a, b) && SourceIsIn(s, a, d, r, f)
      ensures SourceIsIn(s, b, d, r, f)
    {
      hide Good, Onward, Marked, SourceName, SourceEvent;
      MarkedLater(s, a, b, KeyOf(s, r).value, SourceName(d), SourceEvent(s.h, f.source.issue));
    }

    static lemma KeptContribution(s: Setup, a: World, b: World, d: Stamp, r: Receipt, f: Facts, o: Outcome)
      requires Good(s, a) && Good(s, b) && Onward(s, a, b) && Contributed(s, a, d, r, f, o)
      ensures Contributed(s, b, d, r, f, o)
    {
      hide Good, Onward, Marked, SourceName, ReconciledName, CommentName, SourceEvent, Fits, Revealing;
      if !Unobserved(o.status) {
        var key := KeyOf(s, r).value;
        MarkedLater(s, a, b, key, SourceName(d), SourceEvent(s.h, f.source.issue));
        if o.status.CommandApplied? {
          var comment := r.metadata.comment.value;
          MarkedLater(s, a, b, key, CommentName(comment), CommandEvent(f.follow.comments[comment]));
        } else if Marked(s, a, key, ReconciledName(d), RECONCILED) {
          MarkedLater(s, a, b, key, ReconciledName(d), RECONCILED);
        }
      }
    }
  }

  // ---- Whole lifetimes ----

  /** What happens to the service: deliveries arrive, are replayed, other engines
      commit, and the process is started anew. */
  datatype Happening =
    | Receives(delivery: Stamp, body: string, metadata: Metadata, publication: J.Publication)
    | Replays(delivery: Stamp, facts: Facts)
    | Elsewhere(foreign: Foreign)
    | Restarts

  ghost predicate FairHappening(x: Happening) {
    match x
    case Replays(_, facts) => AllFair(facts)
    case Elsewhere(foreign) => Fair(foreign)
    case _ => true
  }

  method Experience(service: Service, x: Happening)
    requires service.Valid() && FairHappening(x)
    modifies service
    ensures service.Valid() && Onward(service.setup, old(service.Now()), service.Now())
  {
    hide Good, Onward, AllFair, Fair;
    OnwardSelf(service.setup, service.Now());
    match x {
      case Receives(delivery, body, metadata, p) => var _ := service.Accept(delivery, body, metadata, p);
      case Replays(delivery, facts) =>
        if delivery in service.inbox {
          var _ := service.Process(delivery, facts);
        }
      case Elsewhere(foreign) => service.Interfere([foreign]);
      case Restarts => service.Restart();
    }
  }

  /** Over any mix of deliveries, replays, failures and restarts, nothing durable is
      lost or changed, no command is committed twice, and no lost approval is ever in
      force again. */
  method Serve(service: Service, hs: seq<Happening>)
    requires service.Valid() && forall x <- hs :: FairHappening(x)
    modifies service
    ensures service.Valid() && Onward(service.setup, old(service.Now()), service.Now())
    ensures forall key: J.TaskKey :: A.LegalLog(LogOf(service.logs, key))
    ensures forall key: J.TaskKey, i: nat, j: nat :: i < j < |LogOf(service.logs, key)| ==> !SameCommand(LogOf(service.logs, key), i, j)
    ensures forall key: J.TaskKey, i: nat, j: nat, n: nat, g: A.Gate :: 0 < i < j <= n <= |LogOf(service.logs, key)| ==>
              !Regained(LogOf(service.logs, key), i, j, n, g)
  {
    hide Good, Onward, FairHappening, LogOf, SameCommand, Regained;
    OnwardSelf(service.setup, service.Now());
    for k := 0 to |hs|
      invariant service.Valid() && Onward(service.setup, old(service.Now()), service.Now())
    {
      ghost var before := service.Now();
      assert hs[k] in hs;
      Experience(service, hs[k]);
      OnwardTwice(service.setup, old(service.Now()), before, service.Now());
    }
    forall key: J.TaskKey
      ensures A.LegalLog(LogOf(service.logs, key))
    {
      WholeFacts(service.setup, service.Now(), key);
    }
    forall key: J.TaskKey, i: nat, j: nat | i < j < |LogOf(service.logs, key)|
      ensures !SameCommand(LogOf(service.logs, key), i, j)
    {
      CommandOnce(service.setup, service.Now(), key, i, j);
    }
    forall key: J.TaskKey, i: nat, j: nat, n: nat, g: A.Gate | 0 < i < j <= n <= |LogOf(service.logs, key)|
      ensures !Regained(LogOf(service.logs, key), i, j, n, g)
    {
      NeverRegained(service.setup, service.Now(), key, i, j, n, g);
    }
  }
}
