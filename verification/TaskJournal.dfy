/** The workflow's events in the journal of their task: a commit that runs the
    workflow's reducer through the journal, with storage failing at any point, and
    the lawful history that every accepted journal then stands for. */
module TaskJournal {
  import opened Results
  import opened Workflow
  import A = Approvals
  import J = Journal
  import Decimal

  /** The JSON form of a task's state. */
  datatype Codec = Codec(encode: Task -> J.Value, decode: J.Value -> Option<Task>)

  /** Nothing is lost in writing a state down. */
  ghost predicate Lossless(codec: Codec) {
    forall t: Task :: codec.encode(t).Object? && codec.decode(codec.encode(t)) == Some(t)
  }

  // ---- Names of events ----

  function CommentName(comment: nat): string {
    "comment-" + Decimal.Render(comment)
  }

  /** Different comments commit under different names. */
  lemma CommentNamesDiffer(a: nat, b: nat)
    requires CommentName(a) == CommentName(b)
    ensures a == b
  {
    assert Decimal.Render(a) == CommentName(a)[8..] == CommentName(b)[8..] == Decimal.Render(b);
    Decimal.RenderThenValue(a);
    Decimal.RenderThenValue(b);
  }

  // ---- Offering an event ----

  /** One event offered to a task's journal: its name, content and blobs, the revision
      it was prepared on, and what the reducer will observe and do. */
  datatype Offer = Offer(id: string, event: J.Value, blobs: seq<J.Value>, expected: nat, timestamp: string, view: View,
                         action: Action)

  /** A command is committed under the name of its comment. */
  predicate Proper(o: Offer) {
    o.action.Commanding? ==> o.id == CommentName(o.action.comment)
  }

  function RequestOf(o: Offer): J.Request {
    J.Request(o.expected, o.id, o.event, o.blobs, o.timestamp)
  }

  /** The next state, if there is one; only a capture starts a task. */
  function NextTask(t: Option<Task>, v: View, a: Action): Outcome {
    if t.Some? then Apply(t.value, v, a)
    else if a.Capturing? then Next(Fresh(v)) else Refuse(TaskMissing)
  }

  function TaskOf(codec: Codec, state: Option<J.Value>): Option<Task> {
    if state.Some? then codec.decode(state.value) else None
  }

  function Reducer(codec: Codec, v: View, a: Action): Option<J.Value> -> Result<J.Value> {
    state =>
      match NextTask(TaskOf(codec, state), v, a)
      case Next(t) => Ok(codec.encode(t))
      case Refuse(_) => Refused("WORKFLOW")
  }

  /** What becomes of an offer, storage permitting. */
  datatype Ruling = Malformed | Collides | Known | Conflicts | Declined(code: Code) | TooLarge | Adds(task: Task)

  function Rule(h: J.Hash, key: J.TaskKey, encodable: J.Document -> bool, codec: Codec, rs: seq<J.Record>, o: Offer): Ruling {
    if !J.ArgumentsAllowed(RequestOf(o)) then Malformed
    else if J.HoldsOther(h, rs, o.id, o.event) then Collides
    else if o.id in J.EventIds(rs) then Known
    else if o.expected != |rs| then Conflicts
    else
      match NextTask(TaskOf(codec, J.LastState(rs)), o.view, o.action)
      case Refuse(code) => Declined(code)
      case Next(t) =>
        if encodable(J.OfBody(J.NextRecord(h, key, rs, RequestOf(o), codec.encode(t)).body)) then Adds(t) else TooLarge
  }

  /** What each ruling stands for, said of the records: only an offer prepared on the
      latest revision, under a name not taken, is added, with the task that the
      workflow makes of the last state; a taken name is known or collides; and a new
      name on any other revision conflicts. */
  lemma RuleMeans(h: J.Hash, key: J.TaskKey, encodable: J.Document -> bool, codec: Codec, rs: seq<J.Record>, o: Offer)
    requires J.ArgumentsAllowed(RequestOf(o))
    ensures var r := Rule(h, key, encodable, codec, rs, o);
            && (r.Collides? <==> exists x <- rs :: x.body.eventId == o.id && x.body.requestDigest != h(J.OfValue(o.event)))
            && (r.Known? <==> !r.Collides? && exists x <- rs :: x.body.eventId == o.id)
            && (r.Conflicts? <==> o.expected != |rs| && !exists x <- rs :: x.body.eventId == o.id)
            && (r.Adds? ==>
                  && o.expected == |rs| && (forall x <- rs :: x.body.eventId != o.id)
                  && var t := if rs == [] then None else codec.decode(rs[|rs| - 1].body.state);
                     if t.Some? then Apply(t.value, o.view, o.action) == Next(r.task)
                     else o.action.Capturing? && r.task == Fresh(o.view))
            && (r.Declined? ==>
                  && o.expected == |rs|
                  && var t := if rs == [] then None else codec.decode(rs[|rs| - 1].body.state);
                     if t.Some? then Apply(t.value, o.view, o.action) == Refuse(r.code)
                     else !o.action.Capturing? && r.code == TaskMissing)
            && !r.Malformed?
  {
    hide Apply, Fresh, J.NextRecord, J.ArgumentsAllowed;
    if o.id in J.EventIds(rs) {
      var x :| x in rs && x.body.eventId == o.id;
    }
  }

  lemma RuleDecides(h: J.Hash, key: J.TaskKey, encodable: J.Document -> bool, codec: Codec, rs: seq<J.Record>, o: Offer)
    requires Lossless(codec) && J.ArgumentsAllowed(RequestOf(o))
    ensures var d := J.Decide(h, key, encodable, rs, RequestOf(o), Reducer(codec, o.view, o.action));
            match Rule(h, key, encodable, codec, rs, o)
            case Adds(t) => d == J.Append(J.NextRecord(h, key, rs, RequestOf(o), codec.encode(t)))
            case Known => d == J.Known
            case _ => d.Reject?
  {
    hide J.NextRecord, Apply, Fresh, J.EventIds, J.ArgumentsAllowed;
  }

  // ---- The history behind a journal ----

  /** Record `i` holds the state after event `i`, under the comment's name if the event
      is a command. */
  ghost predicate Tells(codec: Codec, rs: seq<J.Record>, log: seq<A.Event>, i: nat)
    requires A.LegalLog(log) && i < |log| == |rs|
  {
    && rs[i].body.state == codec.encode(A.TaskAt(log, i + 1))
    && (log[i].action.Commanding? ==> rs[i].body.eventId == CommentName(log[i].action.comment))
  }

  /** The records stand for a lawful history of the task. */
  ghost predicate Represents(codec: Codec, rs: seq<J.Record>, log: seq<A.Event>) {
    |rs| == |log| && A.LegalLog(log) && forall i :: 0 <= i < |log| ==> Tells(codec, rs, log, i)
  }

  lemma CurrentTask(codec: Codec, rs: seq<J.Record>, log: seq<A.Event>)
    requires Lossless(codec) && Represents(codec, rs, log)
    ensures TaskOf(codec, J.LastState(rs)) == A.After(log, |log|).task
  {
    hide A.Legal, A.Step;
    if log != [] {
      assert Tells(codec, rs, log, |log| - 1);
      A.Captures(log, |log|);
    }
  }

  /** A comment handled in the history has a record of its name. */
  lemma {:induction false} CommentRecorded(codec: Codec, rs: seq<J.Record>, log: seq<A.Event>, n: nat, comment: nat)
    requires Represents(codec, rs, log) && n <= |log| && comment in A.After(log, n).comments
    ensures CommentName(comment) in J.EventIds(rs)
  {
    hide A.Legal, Apply, Fresh, CommentName, A.TaskAt;
    if n > 0 {
      if comment in A.After(log, n - 1).comments {
        CommentRecorded(codec, rs, log, n - 1, comment);
      } else {
        assert Tells(codec, rs, log, n - 1);
        assert rs[n - 1] in rs;
      }
    }
  }

  /** An event that is new to the journal and passes the reducer is lawful next: that
      no comment is handled twice follows from the names of the records. */
  lemma NewIsLawful(codec: Codec, rs: seq<J.Record>, log: seq<A.Event>, o: Offer)
    requires Lossless(codec) && Represents(codec, rs, log) && Proper(o) && o.id !in J.EventIds(rs)
    requires NextTask(TaskOf(codec, J.LastState(rs)), o.view, o.action).Next?
    ensures A.Legal(A.After(log, |log|), A.Event(o.view, o.action))
  {
    hide Apply, Fresh, J.EventIds, CommentName, Lossless, Represents, J.LastState, TaskOf, A.After;
    CurrentTask(codec, rs, log);
    if o.action.Commanding? && o.action.comment in A.After(log, |log|).comments {
      CommentRecorded(codec, rs, log, |log|, o.action.comment);
    }
  }

  lemma RepresentsNext(codec: Codec, rs: seq<J.Record>, log: seq<A.Event>, r: J.Record, o: Offer)
    requires Lossless(codec) && Represents(codec, rs, log) && Proper(o) && o.id !in J.EventIds(rs)
    requires NextTask(TaskOf(codec, J.LastState(rs)), o.view, o.action).Next?
    requires r.body.eventId == o.id
    requires r.body.state == codec.encode(NextTask(TaskOf(codec, J.LastState(rs)), o.view, o.action).task)
    ensures Represents(codec, rs + [r], log + [A.Event(o.view, o.action)])
  {
    hide Apply, Fresh, J.EventIds, CommentName, Lossless, TaskOf, A.After, A.Step, J.LastState;
    var e := A.Event(o.view, o.action);
    var longer := log + [e];
    NewIsLawful(codec, rs, log, o);
    A.LawfulNext(log, e);
    forall i | 0 <= i < |longer|
      ensures Tells(codec, rs + [r], longer, i)
    {
      if i < |log| {
        assert Tells(codec, rs, log, i);
        A.SameTask(log, e, i + 1);
      } else {
        CurrentTask(codec, rs, log);
        LastTask(log, o);
      }
    }
  }

  lemma LastTask(log: seq<A.Event>, o: Offer)
    requires var longer := log + [A.Event(o.view, o.action)]; A.LegalLog(longer)
    requires NextTask(A.After(log, |log|).task, o.view, o.action).Next?
    ensures var longer := log + [A.Event(o.view, o.action)];
            A.TaskAt(longer, |log| + 1) == NextTask(A.After(log, |log|).task, o.view, o.action).task
  {
    hide Apply, Fresh, A.LegalLog;
    var e := A.Event(o.view, o.action);
    A.SameAfter(log, e, |log|);
    A.OneAfter(log + [e], |log|);
  }

  // ---- Committing ----

  datatype Answer = Applied(revision: nat) | Repeated(revision: nat) | Rejected(why: Ruling) | NotStored

  /** The disk's journal is accepted and stands for the history. */
  ghost predicate Kept(h: J.Hash, codec: Codec, key: J.TaskKey, disk: J.Disk, log: seq<A.Event>) {
    J.Sound(h, key, disk) && Represents(codec, J.Accepted(h, key, disk).value, log)
  }

  function RecordsOf(h: J.Hash, key: J.TaskKey, disk: J.Disk): seq<J.Record>
    requires J.Sound(h, key, disk)
  {
    J.Accepted(h, key, disk).value
  }

  /** One more record: the offered event. */
  predicate Grew(h: J.Hash, rs: seq<J.Record>, o: Offer, after: seq<J.Record>) {
    && |after| == |rs| + 1 && rs <= after
    && after[|rs|].body.eventId == o.id && after[|rs|].body.requestDigest == h(J.OfValue(o.event))
  }

  /** The offered event is in, or nothing changed. */
  ghost predicate Taken(h: J.Hash, rs: seq<J.Record>, log: seq<A.Event>, o: Offer, after: seq<J.Record>, now: seq<A.Event>) {
    Grew(h, rs, o, after) && now == log + [A.Event(o.view, o.action)]
  }

  /** How a commit may end: a new and admissible event is in, or storage failed, with
      the event in or not; anything else changes nothing. */
  ghost predicate Ends(h: J.Hash, rs: seq<J.Record>, log: seq<A.Event>, o: Offer, ruling: Ruling, unhealthy: bool,
                       after: seq<J.Record>, now: seq<A.Event>, failed: bool, answer: Answer) {
    if ruling.Malformed? then answer == Rejected(Malformed) && after == rs && now == log && failed == unhealthy
    else if unhealthy then answer.NotStored? && after == rs && now == log && failed
    else
      match ruling
      case Adds(_) =>
        || (answer == Applied(|rs| + 1) && Taken(h, rs, log, o, after, now))
        || (answer.NotStored? && failed && (Taken(h, rs, log, o, after, now) || (after == rs && now == log)))
      case Known => answer == Repeated(|rs|) && after == rs && now == log && !failed
      case _ => answer == Rejected(ruling) && after == rs && now == log && !failed
  }

  /** Storage does what it is asked. */
  ghost predicate Works(h: J.Hash, encodable: J.Document -> bool, blobs: map<J.Digest, J.File<J.Value>>, o: Offer,
                        unhealthy: bool, io: nat -> J.Publication) {
    !unhealthy && (forall i :: io(i) == J.Done) && J.Intact(h, blobs) && forall b <- o.blobs :: encodable(J.OfValue(b))
  }

  /** Commits an offer through the journal on the disk. Whatever fails, the journal
      afterwards stands for a lawful history again. */
  method Submit(h: J.Hash, key: J.TaskKey, encodable: J.Document -> bool, codec: Codec, disk: J.Disk, unhealthy: bool,
                ghost log: seq<A.Event>, o: Offer, io: nat -> J.Publication)
    returns (after: J.Disk, failed: bool, answer: Answer, ghost now: seq<A.Event>)
    requires Lossless(codec) && Kept(h, codec, key, disk, log) && Proper(o)
    ensures Kept(h, codec, key, after, now)
    ensures var rs := RecordsOf(h, key, disk);
            Ends(h, rs, log, o, Rule(h, key, encodable, codec, rs, o), unhealthy, RecordsOf(h, key, after), now, failed, answer)
    ensures answer.Applied? || RecordsOf(h, key, after) != RecordsOf(h, key, disk) ==>
              o.expected == |RecordsOf(h, key, disk)| && forall x <- RecordsOf(h, key, disk) :: x.body.eventId != o.id
    ensures o.expected != |RecordsOf(h, key, disk)| ==>
              && RecordsOf(h, key, after) == RecordsOf(h, key, disk) && now == log
              && (J.ArgumentsAllowed(RequestOf(o)) && !unhealthy ==>
                    answer == Rejected(Conflicts) || exists x <- RecordsOf(h, key, disk) :: x.body.eventId == o.id)
    ensures Works(h, encodable, disk.blobs, o, unhealthy, io) ==> !failed && !answer.NotStored?
    ensures J.Intact(h, disk.blobs) ==> J.Intact(h, after.blobs)
  {
    hide J.Accepted, J.SnapshotCurrent, J.Intact, Represents, Rule, J.Decide, J.NextRecord, Lossless, J.ArgumentsAllowed, Reducer, NextTask,
         J.EventIds, J.Publishable;
    var q := RequestOf(o);
    ghost var rs := RecordsOf(h, key, disk);
    ghost var decision := J.Decide(h, key, encodable, rs, q, Reducer(codec, o.view, o.action));
    OfferDecided(h, key, encodable, codec, rs, log, o);
    if J.ArgumentsAllowed(q) {
      RuleMeans(h, key, encodable, codec, rs, o);
    }
    if J.Intact(h, disk.blobs) && forall b <- o.blobs :: encodable(J.OfValue(b)) {
      J.IntactPublishable(h, encodable, disk.blobs, o.blobs);
    }
    var journal := new J.FileJournal.Open(h, key, encodable, disk, unhealthy);
    var r := journal.Commit(q, Reducer(codec, o.view, o.action), io);
    after, failed := journal.disk, journal.unhealthy;
    now := if RecordsOf(h, key, after) == rs then log else log + [A.Event(o.view, o.action)];
    if r.Ok? {
      answer := if r.value.duplicate then Repeated(r.value.revision) else Applied(r.value.revision);
    } else if !J.ArgumentsAllowed(q) {
      answer := Rejected(Malformed);
    } else if failed {
      answer := NotStored;
    } else {
      var read := J.Records(h, key, disk);
      answer := Rejected(Rule(h, key, encodable, codec, read.value, o));
    }
  }

  /** What the journal decides about an offer, and what an appended record tells. */
  lemma OfferDecided(h: J.Hash, key: J.TaskKey, encodable: J.Document -> bool, codec: Codec, rs: seq<J.Record>, log: seq<A.Event>,
                     o: Offer)
    requires Lossless(codec) && Represents(codec, rs, log) && Proper(o)
    ensures var ruling := Rule(h, key, encodable, codec, rs, o);
            if !J.ArgumentsAllowed(RequestOf(o)) then ruling.Malformed?
            else
              var d := J.Decide(h, key, encodable, rs, RequestOf(o), Reducer(codec, o.view, o.action));
              match ruling
              case Adds(t) =>
                && d.Append? && Taken(h, rs, log, o, rs + [d.record], log + [A.Event(o.view, o.action)])
                && Represents(codec, rs + [d.record], log + [A.Event(o.view, o.action)])
              case Known => d == J.Known
              case Malformed => false
              case _ => d.Reject?
  {
    hide J.ArgumentsAllowed, Represents, Lossless, J.EventIds, Apply, Fresh, TaskOf, J.LastState;
    if J.ArgumentsAllowed(RequestOf(o)) {
      RuleDecides(h, key, encodable, codec, rs, o);
      var ruling := Rule(h, key, encodable, codec, rs, o);
      if ruling.Adds? {
        RepresentsNext(codec, rs, log, J.NextRecord(h, key, rs, RequestOf(o), codec.encode(ruling.task)), o);
      }
    }
  }
}
