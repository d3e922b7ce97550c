/** A model run as it is stored and changed: every method is one committed change,
    and `Generate` is the driver of one model call. */
module ModelRuns {
  import opened Results
  import opened Transcripts
  import opened Sessions
  import H = SessionHistory
  import L = SessionLaws

  /** What the adapter comes back with. */
  datatype Reply = Replied(text: string, calls: seq<Call>) | Errored(failure: Failure)

  /** Where the driver dies, if it does. */
  datatype CrashPoint = Survives | BeforeCall | AfterCall

  datatype Generated =
    | Response(answer: Answer)
    | Stored(answer: Answer)
    | Rejected(fault: Fault)
    | EffectUnknown
    | EarlierFailure
    | CallFailed
    | Died

  const UNKNOWN_EFFECT := Failure(false, false, Some(1))

  const INVALID_RESPONSE := Failure(false, true, Some(1))

  function Historical(messages: seq<Message>): set<string> {
    set m, i | m in messages && 0 <= i < |CallsOf(m)| :: CallsOf(m)[i].id
  }

  /** The checks on an adapter's answer. */
  predicate Validates(calls: seq<Call>, messages: seq<Message>, permitted: Call -> bool) {
    && DistinctCalls(calls)
    && forall c <- calls :: permitted(c) && c.id !in Historical(messages)
  }

  /** The calls of the answer have identities of their own, were never made in the
      transcript, and are each permitted. */
  predicate GoodCalls(calls: seq<Call>, messages: seq<Message>, permitted: Call -> bool) {
    && (forall i, j :: 0 <= i < j < |calls| ==> calls[i].id != calls[j].id)
    && (forall c <- calls :: permitted(c))
    && (forall c, m, k :: c in calls && m in messages && m.Assistant? && k in m.calls ==> k.id != c.id)
  }

  lemma ValidatesMeans(calls: seq<Call>, messages: seq<Message>, permitted: Call -> bool)
    ensures Validates(calls, messages, permitted) <==> GoodCalls(calls, messages, permitted)
  {
    forall c, m | c in calls && m in messages
      ensures (exists i :: 0 <= i < |CallsOf(m)| && CallsOf(m)[i].id == c.id) <==> (m.Assistant? && exists k <- m.calls :: k.id == c.id)
    {
      if m.Assistant? && exists k <- m.calls :: k.id == c.id {
        var k :| k in m.calls && k.id == c.id;
        var i :| 0 <= i < |m.calls| && m.calls[i] == k;
        assert CallsOf(m)[i].id == c.id;
      }
    }
    if Validates(calls, messages, permitted) {
      forall c, m, k | c in calls && m in messages && m.Assistant? && k in m.calls
        ensures k.id != c.id
      {
        var i :| 0 <= i < |m.calls| && m.calls[i] == k;
        assert CallsOf(m)[i].id in Historical(messages);
      }
    }
  }

  // ---- What a driver meets ----

  /** The session is the active one, and the request new or asked on its own terms. */
  predicate Asked(run: Run, request: string, identity: Identity) {
    && run.activeSession == Some(identity.session) && identity.session in run.sessions
    && (request in run.requests ==> run.requests[request].identity == identity)
  }

  predicate InStatus(run: Run, request: string, status: Status) {
    request in run.requests && run.requests[request].status == status
  }

  /** The request is new or waits for another attempt, nothing else is going on, and
      both budgets and the attempts last. */
  predicate MayAttempt(run: Run, request: string, timeout: nat) {
    && (request in run.requests ==> run.requests[request].status == RetryWait)
    && (forall id <- run.tools :: run.tools[id].status.Done?)
    && (forall id <- run.requests :: id != request ==> run.requests[id].status != Pending && run.requests[id].status != RetryWait)
    && run.modelCalls < run.limits.modelCalls && run.activeSeconds + timeout <= run.limits.activeSeconds
    && (request in run.requests ==> run.requests[request].attempt < run.limits.retryAttempts) && run.limits.retryAttempts > 0
  }

  lemma AttemptMeans(run: Run, request: string, identity: Identity)
    requires Sessions.Inv(run) && Asked(run, request, identity)
    ensures Sessions.Reserve(run, request, identity, run.sessions[identity.session], Lookup(run.requests, request)).Next? <==>
              MayAttempt(run, request, identity.timeout)
  {
    hide Sessions.Inv, Unfinished, OpenRequests, Sessions.Reserve;
    L.AttemptReserved(run, request, identity, run.sessions[identity.session]);
    L.QuietMeans(run);
    OpenMeans(run, request);
  }

  lemma OnlyWaiting(run: Run, request: string, timeout: nat)
    requires MayAttempt(run, request, timeout)
    ensures request in run.requests ==> run.requests[request].status == RetryWait
  {
  }

  lemma OpenMeans(run: Run, request: string)
    ensures OpenRequests(run) <= {request} <==>
              forall id <- run.requests :: id != request ==> run.requests[id].status != Pending && run.requests[id].status != RetryWait
  {
    assert forall id <- run.requests :: IsOpen(run.requests[id]) ==> id in OpenRequests(run);
  }

  /** A failed call is charged with the seconds that went by. The request waits for
      another attempt exactly if the adapter said that one may help, that there was no
      effect, and how long to wait within a minute, and attempts are left; a cancelled
      or late call, or an answer that is not permitted, is never repeated. */
  predicate Charged(was: Run, now: Run, request: string, elapsed: nat, reply: Reply) {
    && request in now.requests
    && now == was.(modelCalls := was.modelCalls + 1, activeSeconds := was.activeSeconds + elapsed,
                   requests := was.requests[request := now.requests[request]])
    && (now.requests[request].status == RetryWait || now.requests[request].status == Failed)
    && (now.requests[request].status == RetryWait <==>
          && reply.Errored? && reply.failure.retryable && reply.failure.effectNone
          && reply.failure.delay.Some? && 0 <= reply.failure.delay.value <= 60
          && L.Attempts(was, request) + 1 < was.limits.retryAttempts)
  }

  lemma FailureCharged(was: Run, c: Change, elapsed: nat, reply: Reply, cancelled: bool, late: bool, now: Run)
    requires c.Reserving? && Apply(was, c).Next?
    requires Apply(Apply(was, c).run, Failing(c.request, elapsed, FailureOf(reply, cancelled, late))) == Next(now)
    ensures Charged(was, now, c.request, elapsed, reply)
  {
    hide Sessions.Fail, Sessions.Reserve;
    var f := FailureOf(reply, cancelled, late);
    L.AttemptFailed(was, c.request, c.identity, c.seen, c.existing, elapsed, f, elapsed, f);
    FailedStatus(Apply(was, c).run, c.request, elapsed, f);
  }

  lemma FailureTaken(was: Run, c: Change, elapsed: nat, f: Failure)
    requires c.Reserving? && Apply(was, c).Next?
    ensures Sessions.Fail(Apply(was, c).run, c.request, elapsed, f).Next?
  {
    hide Sessions.Fail, Sessions.Reserve;
    L.AttemptFailed(was, c.request, c.identity, c.seen, c.existing, elapsed, f, elapsed, f);
  }

  lemma FailedStatus(run: Run, request: string, elapsed: nat, f: Failure)
    requires Sessions.Fail(run, request, elapsed, f).Next?
    ensures var r := Sessions.Fail(run, request, elapsed, f).run.requests; request in r && (r[request].status == RetryWait || r[request].status == Failed)
    ensures var r := Sessions.Fail(run, request, elapsed, f).run.requests; r[request].status == RetryWait ==> f.retryable && f.effectNone
  {
  }

  ghost predicate Follows(limits: Limits, log: seq<H.Event>, run: Run) {
    H.LegalLog(limits, log) && H.After(limits, log, |log|).run == run
  }

  lemma {:induction false} AfterPrefix(limits: Limits, log: seq<H.Event>, e: H.Event, n: nat)
    requires n <= |log|
    ensures H.After(limits, log + [e], n) == H.After(limits, log, n)
  {
    hide H.Step;
    if n > 0 {
      AfterPrefix(limits, log, e, n - 1);
    }
  }

  lemma LogOneMore(limits: Limits, log: seq<H.Event>, e: H.Event)
    requires H.LegalLog(limits, log) && H.Legal(H.After(limits, log, |log|), e)
    ensures H.LegalLog(limits, log + [e])
    ensures H.After(limits, log + [e], |log| + 1) == H.Step(H.After(limits, log, |log|), e)
  {
    hide H.Step, H.Legal, H.After;
    var longer := log + [e];
    forall n | 0 <= n < |longer|
      ensures H.LegalAt(limits, longer, n)
    {
      AfterPrefix(limits, log, e, n);
      assert n < |log| ==> H.LegalAt(limits, log, n);
    }
    AfterPrefix(limits, log, e, |log|);
    H.StepAfter(limits, longer, |log|);
  }

  lemma CommitFollows(limits: Limits, log: seq<H.Event>, run: Run, c: Change)
    requires Follows(limits, log, run) && WellFormed(c) && Apply(run, c).Next?
    ensures Follows(limits, log + [H.Commit(c)], Apply(run, c).run)
    ensures c.Reserving? ==>
              (c.request, H.AttemptOf(run, c.request) + 1) in H.After(limits, log + [H.Commit(c)], |log| + 1).waiting
  {
    hide Apply, H.After, H.LegalLog, H.Record, H.AttemptOf;
    LogOneMore(limits, log, H.Commit(c));
  }

  lemma OtherFollows(limits: Limits, log: seq<H.Event>, run: Run, e: H.Event)
    requires Follows(limits, log, run) && !e.Commit? && H.Legal(H.After(limits, log, |log|), e)
    ensures Follows(limits, log + [e], run)
  {
    hide H.After, H.LegalLog;
    LogOneMore(limits, log, e);
  }

  lemma FollowsInv(limits: Limits, log: seq<H.Event>, run: Run)
    requires Follows(limits, log, run)
    ensures Sessions.Inv(run)
  {
    hide H.After, H.LegalLog, Sessions.Inv;
    H.InvAlways(limits, log, |log|);
  }

  /** The change was committed, or refused without any effect. */
  ghost predicate Did(was: Run, wasLog: seq<H.Event>, c: Change, fault: Option<Fault>, now: Run, log: seq<H.Event>) {
    match Apply(was, c)
    case Next(run) => fault.None? && now == run && log == wasLog + [H.Commit(c)]
    case Refuse(f) => fault == Some(f) && now == was && log == wasLog
  }

  lemma DidExtends(was: Run, wasLog: seq<H.Event>, c: Change, fault: Option<Fault>, now: Run, log: seq<H.Event>)
    requires Did(was, wasLog, c, fault, now, log)
    ensures wasLog <= log
    ensures fault.None? ==> Apply(was, c) == Next(now) && log == wasLog + [H.Commit(c)]
    ensures fault.Some? ==> now == was && log == wasLog && Apply(was, c) == Refuse(fault.value)
  {
    hide Apply;
  }

  lemma DidNext(was: Run, wasLog: seq<H.Event>, c: Change, fault: Option<Fault>, now: Run, log: seq<H.Event>)
    requires Did(was, wasLog, c, fault, now, log)
    ensures fault.None? <==> Apply(was, c).Next?
  {
    hide Apply;
  }

  lemma DidReserve(was: Run, wasLog: seq<H.Event>, request: string, identity: Identity, seen: Session, existing: Option<Request>,
                   fault: Option<Fault>, now: Run, log: seq<H.Event>)
    requires Did(was, wasLog, Reserving(request, identity, seen, existing), fault, now, log)
    ensures fault.None? <==> Sessions.Reserve(was, request, identity, seen, existing).Next?
  {
    hide Sessions.Reserve;
  }

  /** A reserved attempt can be completed with calls that are new to the run. */
  lemma ReservedCompletes(was: Run, c: Change, text: string, calls: seq<Call>, elapsed: nat)
    requires c.Reserving? && Apply(was, c).Next?
    ensures var completed := Sessions.Complete(Apply(was, c).run, c.request, text, calls, elapsed);
            if CallIds(calls) !! was.tools.Keys then completed.Next? else completed == Refuse(ToolCollision)
  {
    hide Accepts, CallIds, NewTools, OpenRequests, Unfinished;
  }

  lemma DidComplete(was: Run, wasLog: seq<H.Event>, c: Change, fault: Option<Fault>, now: Run, log: seq<H.Event>)
    requires Did(was, wasLog, c, fault, now, log) && c.Completing? && fault.None?
    ensures c.request in now.requests && now.requests[c.request].status.Completed?
    ensures now.requests[c.request].answer == Some(Answer(c.text, c.calls))
  {
    hide CallIds, NewTools, Append;
  }

  lemma NewToRun(calls: seq<Call>, tools: map<string, Tool>)
    ensures CallIds(calls) !! tools.Keys <==> forall c <- calls :: c.id !in tools
  {
    forall c <- calls
      ensures c.id in CallIds(calls)
    {
      var i :| 0 <= i < |calls| && calls[i] == c;
      assert calls[i].id in CallIds(calls);
    }
    if !(CallIds(calls) !! tools.Keys) {
      var id :| id in CallIds(calls) && id in tools;
      var i :| 0 <= i < |calls| && calls[i].id == id;
      assert calls[i] in calls;
    }
  }

  /** What a failed call is recorded as. */
  function FailureOf(reply: Reply, cancelled: bool, late: bool): (f: Failure)
    ensures reply.Replied? ==> !f.retryable && (f.effectNone <==> !cancelled && !late)
    ensures reply.Errored? ==> f == reply.failure
  {
    if reply.Errored? then reply.failure
    else if cancelled || late then UNKNOWN_EFFECT else INVALID_RESPONSE
  }

  predicate HasAnswer(run: Run, request: string, answer: Answer) {
    request in run.requests && run.requests[request].status.Completed? && run.requests[request].answer == Some(answer)
  }

  /** The first two events: the attempt is reserved, and only then the adapter is
      called with it, unless the driver died in between. */
  ghost predicate CalledAfterReserving(was: Run, wasLog: seq<H.Event>, request: string, identity: Identity,
                                       crash: CrashPoint, log: seq<H.Event>)
  {
    && |log| >= |wasLog| + 2 && wasLog <= log
    && log[|wasLog|].Commit? && log[|wasLog|].change.Reserving?
    && log[|wasLog|].change.request == request && log[|wasLog|].change.identity == identity
    && log[|wasLog| + 1] ==
       if crash.BeforeCall? then H.Crash else H.CallAdapter(request, H.AttemptOf(was, request) + 1)
  }

  lemma CallTrace(was: Run, wasLog: seq<H.Event>, request: string, identity: Identity, seen: Session,
                  existing: Option<Request>, crash: CrashPoint, log: seq<H.Event>)
    requires var next := if crash.BeforeCall? then H.Crash else H.CallAdapter(request, H.AttemptOf(was, request) + 1);
             wasLog + [H.Commit(Reserving(request, identity, seen, existing))] + [next] <= log
    ensures CalledAfterReserving(was, wasLog, request, identity, crash, log)
  {
    hide H.AttemptOf;
  }

  lemma DistinctIfValid(calls: seq<Call>, messages: seq<Message>, permitted: Call -> bool)
    requires Validates(calls, messages, permitted)
    ensures DistinctCalls(calls)
  {
  }

  class ModelRun {
    const limits: Limits
    var modelCalls: nat
    var toolCalls: nat
    var activeSeconds: int
    var activeSession: Option<string>
    var sessions: map<string, Session>
    var requests: map<string, Request>
    var tools: map<string, Tool>
    ghost var log: seq<H.Event>

    function Now(): Run
      reads this
    {
      Run(limits, modelCalls, toolCalls, activeSeconds, activeSession, sessions, requests, tools)
    }

    ghost predicate Valid()
      reads this
    {
      Follows(limits, log, Now())
    }

    constructor (limits: Limits)
      ensures Valid() && fresh(this) && this.limits == limits && Now() == Created(limits) && log == []
    {
      this.limits := limits;
      modelCalls, toolCalls, activeSeconds, activeSession := 0, 0, 0, None;
      sessions, requests, tools, log := map[], map[], map[], [];
      new;
      hide H.LegalLog, H.Legal, H.Step;
      H.Beginning(limits, log);
      NoLog();
    }

    lemma NoLog()
      ensures H.LegalLog(limits, [])
    {
    }

    method OpenSession(id: string, definition: string, prompt: string, checkpoint: string) returns (fault: Option<Fault>)
      requires Valid()
      modifies this
      ensures Valid() && Did(old(Now()), old(log), Opening(id, definition, prompt, checkpoint), fault, Now(), log)
    {
      hide Follows, Unfinished, OpenRequests;
      if id in sessions {
        if activeSession != Some(id) || sessions[id].definition != definition {
          return Some(SessionChanged);
        }
      } else {
        if OpenRequests(Now()) != {} {
          return Some(RequestPending);
        }
        if Unfinished(Now()) != {} {
          return Some(ToolsPending);
        }
      }
      CommitFollows(limits, log, Now(), Opening(id, definition, prompt, checkpoint));
      if id !in sessions {
        sessions := sessions[id := Session(definition, [System(prompt), User(checkpoint)])];
        activeSession := Some(id);
      }
      log := log + [H.Commit(Opening(id, definition, prompt, checkpoint))];
      fault := None;
    }

    method Reserve(request: string, identity: Identity, seen: Session, existing: Option<Request>) returns (fault: Option<Fault>)
      requires Valid()
      modifies this
      ensures Valid() && Did(old(Now()), old(log), Reserving(request, identity, seen, existing), fault, Now(), log)
    {
      hide Follows, Unfinished, OpenRequests, Accepts;
      if existing.Some? {
        if existing.value.identity != identity {
          return Some(RequestCollision);
        }
        if !existing.value.status.RetryWait? {
          return Some(RequestState);
        }
      }
      var accepted := Check(seen.messages);
      if !accepted {
        return Some(RequestRejected);
      }
      if activeSession != Some(identity.session) || Lookup(sessions, identity.session) != Some(seen) {
        return Some(SessionChanged);
      }
      if Lookup(requests, request) != existing {
        return Some(RequestCollision);
      }
      if Unfinished(Now()) != {} {
        return Some(ToolsPending);
      }
      if OpenRequests(Now()) - {request} != {} {
        return Some(RequestPending);
      }
      if !(modelCalls < limits.modelCalls && activeSeconds + identity.timeout <= limits.activeSeconds) {
        return Some(OverBudget);
      }
      var attempt := (if existing.Some? then existing.value.attempt else 0) + 1;
      if attempt > limits.retryAttempts {
        return Some(RetryExhausted);
      }
      CommitFollows(limits, log, Now(), Reserving(request, identity, seen, existing));
      modelCalls := modelCalls + 1;
      activeSeconds := activeSeconds + identity.timeout;
      requests := requests[request := Request(identity, Pending, attempt, None)];
      log := log + [H.Commit(Reserving(request, identity, seen, existing))];
      fault := None;
    }

    method Fail(request: string, elapsed: nat, failure: Failure) returns (fault: Option<Fault>)
      requires Valid()
      modifies this
      ensures Valid() && Did(old(Now()), old(log), Failing(request, elapsed, failure), fault, Now(), log)
    {
      hide Follows, Retries;
      if request !in requests {
        return Some(NoSuchRequest);
      }
      var record := requests[request];
      if !record.status.Pending? {
        return Some(RequestCollision);
      }
      CommitFollows(limits, log, Now(), Failing(request, elapsed, failure));
      activeSeconds := activeSeconds + elapsed - record.identity.timeout;
      requests := requests[request := record.(status := if Retries(limits, record, failure) then RetryWait else Failed)];
      log := log + [H.Commit(Failing(request, elapsed, failure))];
      fault := None;
    }

    method Complete(request: string, text: string, calls: seq<Call>, elapsed: nat) returns (fault: Option<Fault>)
      requires Valid() && DistinctCalls(calls)
      modifies this
      ensures Valid() && Did(old(Now()), old(log), Completing(request, text, calls, elapsed), fault, Now(), log)
    {
      hide Follows, CallIds, NewTools, DistinctCalls;
      if request !in requests {
        return Some(NoSuchRequest);
      }
      var record := requests[request];
      if !record.status.Pending? {
        return Some(RequestCollision);
      }
      if !(CallIds(calls) !! tools.Keys) {
        return Some(ToolCollision);
      }
      CommitFollows(limits, log, Now(), Completing(request, text, calls, elapsed));
      requests := requests[request := record.(status := Completed, answer := Some(Answer(text, calls)))];
      activeSeconds := activeSeconds + elapsed - record.identity.timeout;
      sessions := Append(sessions, record.identity.session, Assistant(text, calls));
      tools := Offer(tools, record.identity.session, calls);
      log := log + [H.Commit(Completing(request, text, calls, elapsed))];
      fault := None;
    }

    /** The loop that records the calls of an answer as ready tools. */
    static method Offer(tools: map<string, Tool>, session: string, calls: seq<Call>) returns (more: map<string, Tool>)
      ensures more == tools + NewTools(session, calls, |calls|)
    {
      more := tools;
      var i := 0;
      while i < |calls|
        invariant i <= |calls| && more == tools + NewTools(session, calls, i)
      {
        more := more[calls[i].id := Tool(session, calls[i], Ready)];
        i := i + 1;
      }
    }

    method Claim(tool: string) returns (fault: Option<Fault>)
      requires Valid()
      modifies this
      ensures Valid() && Did(old(Now()), old(log), Claiming(tool), fault, Now(), log)
    {
      hide Follows, ClaimedTools;
      if tool !in tools {
        return Some(ToolMissing);
      }
      if !tools[tool].status.Ready? {
        return Some(ToolAlreadyClaimed);
      }
      if toolCalls >= limits.toolCalls {
        return Some(OverBudget);
      }
      if ClaimedTools(Now()) != {} {
        return Some(ToolsPending);
      }
      CommitFollows(limits, log, Now(), Claiming(tool));
      tools := tools[tool := tools[tool].(status := Claimed)];
      toolCalls := toolCalls + 1;
      log := log + [H.Commit(Claiming(tool))];
      fault := None;
    }

    method Finish(tool: string, text: string, digest: string) returns (fault: Option<Fault>)
      requires Valid()
      modifies this
      ensures Valid() && Did(old(Now()), old(log), Finishing(tool, text, digest), fault, Now(), log)
    {
      hide Follows;
      if tool !in tools {
        return Some(ToolMissing);
      }
      var t := tools[tool];
      if t.status.Done? {
        if t.status.digest != digest {
          return Some(ToolCollision);
        }
      } else if !t.status.Claimed? {
        return Some(ToolNotClaimed);
      }
      CommitFollows(limits, log, Now(), Finishing(tool, text, digest));
      if !t.status.Done? {
        tools := tools[tool := t.(status := Done(digest))];
        sessions := Append(sessions, t.session, ToolResult(tool, text));
      }
      log := log + [H.Commit(Finishing(tool, text, digest))];
      fault := None;
    }

    method Abandon(request: string) returns (fault: Option<Fault>)
      requires Valid()
      modifies this
      ensures Valid() && Did(old(Now()), old(log), Abandoning(request), fault, Now(), log)
    {
      hide Follows;
      if request !in requests {
        return Some(NoSuchRequest);
      }
      if !IsOpen(requests[request]) {
        return Some(RequestState);
      }
      CommitFollows(limits, log, Now(), Abandoning(request));
      requests := requests[request := requests[request].(status := Abandoned)];
      log := log + [H.Commit(Abandoning(request))];
      fault := None;
    }

    method Perform(c: Change) returns (fault: Option<Fault>)
      requires Valid() && WellFormed(c)
      modifies this
      ensures Valid() && Did(old(Now()), old(log), c, fault, Now(), log)
    {
      hide Apply;
      match c {
        case Opening(id, definition, prompt, checkpoint) => fault := OpenSession(id, definition, prompt, checkpoint);
        case Reserving(request, identity, seen, existing) => fault := Reserve(request, identity, seen, existing);
        case Failing(request, elapsed, failure) => fault := Fail(request, elapsed, failure);
        case Completing(request, text, calls, elapsed) => fault := Complete(request, text, calls, elapsed);
        case Claiming(tool) => fault := Claim(tool);
        case Finishing(tool, text, digest) => fault := Finish(tool, text, digest);
        case Abandoning(request) => fault := Abandon(request);
      }
    }

    /** One model call, with everything that can come between its steps: the driver
        may die before or after the call, and while the adapter works others may
        commit changes. */
    method Generate(session: string, request: string, maxOutput: nat, timeout: nat, permitted: Call -> bool, reply: Reply,
                    cancelled: bool, late: bool, elapsed: nat, others: seq<Change>, crash: CrashPoint)
      returns (r: Generated)
      requires Valid() && forall c <- others :: WellFormed(c)
      modifies this
      ensures Valid()
      ensures r.Stored? ==> HasAnswer(Now(), request, r.answer)
      ensures r.Response? ==> HasAnswer(Now(), request, r.answer) && reply == Replied(r.answer.text, r.answer.calls)
      ensures var was, identity := old(Now()), Identity(session, maxOutput, timeout);
              && (r.Stored? <==> Asked(was, request, identity) && InStatus(was, request, Completed))
              && (r.EffectUnknown? <==> Asked(was, request, identity) && InStatus(was, request, Pending))
              && (r.EarlierFailure? <==>
                    Asked(was, request, identity) && (InStatus(was, request, Failed) || InStatus(was, request, Abandoned)))
              && (log != old(log) <==> Asked(was, request, identity) && MayAttempt(was, request, timeout))
              && (log == old(log) ==> Now() == was)
              && (log != old(log) ==> CalledAfterReserving(was, old(log), request, identity, crash, log))
      ensures r.Died? <==> log != old(log) && !crash.Survives?
      ensures r.Response? ==>
                && !cancelled && !late
                && session in old(sessions) && GoodCalls(r.answer.calls, old(sessions)[session].messages, permitted)
      ensures log != old(log) && others == [] && crash.Survives? ==>
                && (r.Response? <==>
                      && reply.Replied? && !cancelled && !late
                      && session in old(sessions) && GoodCalls(reply.calls, old(sessions)[session].messages, permitted)
                      && forall c <- reply.calls :: c.id !in old(tools))
                && (r.CallFailed? ==> Charged(old(Now()), Now(), request, elapsed, reply))
                && (!r.CallFailed? && !r.Response? ==>
                      r == Rejected(ToolCollision) && reply.Replied? && exists c <- reply.calls :: c.id in old(tools))
    {
      hide Follows, Apply, Did, HasAnswer, CalledAfterReserving, Accepts, MayAttempt, GoodCalls, Charged;
      if activeSession != Some(session) || session !in sessions {
        return Rejected(SessionChanged);
      }
      var identity := Identity(session, maxOutput, timeout);
      var seen, existing := sessions[session], Lookup(requests, request);
      if MayAttempt(Now(), request, timeout) {
        OnlyWaiting(Now(), request, timeout);
      }
      if existing.Some? {
        if existing.value.identity != identity {
          return Rejected(RequestCollision);
        }
        if existing.value.status.Completed? {
          AnswerStored(request);
          return Stored(existing.value.answer.value);
        }
        if existing.value.status.Pending? {
          return EffectUnknown;
        }
        if !existing.value.status.RetryWait? {
          return EarlierFailure;
        }
      }
      FollowsInv(limits, log, Now());
      AttemptMeans(Now(), request, identity);
      var fault := Reserve(request, identity, seen, existing);
      DidExtends(old(Now()), old(log), Reserving(request, identity, seen, existing), fault, Now(), log);
      DidReserve(old(Now()), old(log), request, identity, seen, existing, fault, Now(), log);
      if fault.Some? {
        return Rejected(fault.value);
      }
      r := Call(old(Now()), old(log), request, identity, seen, existing, permitted, reply, cancelled, late, elapsed, others, crash);
    }

    /** The driver's steps after its attempt is reserved. */
    method Call(ghost was: Run, ghost wasLog: seq<H.Event>, request: string, identity: Identity, seen: Session,
                existing: Option<Request>, permitted: Call -> bool, reply: Reply, cancelled: bool, late: bool,
                elapsed: nat, others: seq<Change>, crash: CrashPoint)
      returns (r: Generated)
      requires Valid() && forall c <- others :: WellFormed(c)
      requires Follows(limits, wasLog, was)
      requires Apply(was, Reserving(request, identity, seen, existing)) == Next(Now())
      requires log == wasLog + [H.Commit(Reserving(request, identity, seen, existing))]
      modifies this
      ensures Valid() && !r.Stored? && !r.EffectUnknown? && !r.EarlierFailure?
      ensures r.Response? ==> HasAnswer(Now(), request, r.answer) && reply == Replied(r.answer.text, r.answer.calls)
      ensures CalledAfterReserving(was, wasLog, request, identity, crash, log) && log != wasLog
      ensures r.Died? <==> !crash.Survives?
      ensures r.Response? ==> !cancelled && !late && GoodCalls(r.answer.calls, seen.messages, permitted)
      ensures others == [] && crash.Survives? ==>
                && (r.Response? <==>
                      && reply.Replied? && !cancelled && !late && GoodCalls(reply.calls, seen.messages, permitted)
                      && forall c <- reply.calls :: c.id !in was.tools)
                && (r.CallFailed? ==> Charged(was, Now(), request, elapsed, reply))
                && (!r.CallFailed? && !r.Response? ==>
                      r == Rejected(ToolCollision) && reply.Replied? && exists c <- reply.calls :: c.id in was.tools)
    {
      hide Follows, Apply, Did, HasAnswer, CalledAfterReserving, H.Legal, H.After, GoodCalls, Validates, Charged, FailureOf, CallIds;
      var c := Reserving(request, identity, seen, existing);
      ReservedNow(wasLog, was, c);
      if crash.BeforeCall? {
        Record(H.Crash);
        CallTrace(was, wasLog, request, identity, seen, existing, crash, log);
        return Died;
      }
      Record(H.CallAdapter(request, H.AttemptOf(was, request) + 1));
      ghost var called := log;
      var i := 0;
      while i < |others|
        invariant Valid() && called <= log && (others == [] ==> Now() == old(Now()))
      {
        ghost var run, events := Now(), log;
        var refused := Perform(others[i]);
        DidExtends(run, events, others[i], refused, Now(), log);
        i := i + 1;
      }
      if crash.AfterCall? {
        AlwaysLegal(log);
        Record(H.Crash);
        r := Died;
      } else {
        ghost var reserved, before := Now(), log;
        r := Settle(request, seen, permitted, reply, cancelled, late, elapsed);
        if reply.Replied? {
          ValidatesMeans(reply.calls, seen.messages, permitted);
          NewToRun(reply.calls, was.tools);
          ReservedCompletes(was, c, reply.text, reply.calls, elapsed);
        }
        FailureTaken(was, c, elapsed, FailureOf(reply, cancelled, late));
        if others == [] && r.CallFailed? {
          DidExtends(reserved, before, Failing(request, elapsed, FailureOf(reply, cancelled, late)), None, Now(), log);
          FailureCharged(was, c, elapsed, reply, cancelled, late, Now());
        }
      }
      CallTrace(was, wasLog, request, identity, seen, existing, crash, log);
    }

    lemma AlwaysLegal(events: seq<H.Event>)
      ensures H.Legal(H.After(limits, events, |events|), H.Crash)
    {
    }

    ghost method Record(e: H.Event)
      requires Valid() && !e.Commit? && H.Legal(H.After(limits, log, |log|), e)
      modifies this`log
      ensures Valid() && log == old(log) + [e]
    {
      hide H.LegalLog, H.After, H.Legal, Follows;
      OtherFollows(limits, log, Now(), e);
      log := log + [e];
    }

    lemma AnswerStored(request: string)
      requires Valid() && request in requests && requests[request].status.Completed?
      ensures requests[request].answer.Some? && HasAnswer(Now(), request, requests[request].answer.value)
    {
      hide Follows, Faithful, OneAtATime, WithinBudget;
      FollowsInv(limits, log, Now());
    }

    lemma ReservedNow(before: seq<H.Event>, run: Run, c: Change)
      requires Follows(limits, before, run) && c.Reserving? && Apply(run, c).Next? && log == before + [H.Commit(c)]
      ensures H.Legal(H.After(limits, log, |log|), H.CallAdapter(c.request, H.AttemptOf(run, c.request) + 1))
      ensures H.Legal(H.After(limits, log, |log|), H.Crash)
    {
      hide Follows, Apply, H.After, H.AttemptOf;
      CommitFollows(limits, before, run, c);
    }

    /** The answer is checked and settled: completed, or failed with what is known
        of its effect. */
    method Settle(request: string, seen: Session, permitted: Call -> bool, reply: Reply, cancelled: bool, late: bool, elapsed: nat)
      returns (r: Generated)
      requires Valid()
      modifies this
      ensures Valid() && old(log) <= log
      ensures r.Response? ==>
                && reply == Replied(r.answer.text, r.answer.calls) && !cancelled && !late
                && Validates(reply.calls, seen.messages, permitted)
                && Did(old(Now()), old(log), Completing(request, reply.text, reply.calls, elapsed), None, Now(), log)
                && HasAnswer(Now(), request, r.answer)
      ensures reply.Replied? && !cancelled && !late && Validates(reply.calls, seen.messages, permitted) ==>
                (r.Response? <==> Sessions.Complete(old(Now()), request, reply.text, reply.calls, elapsed).Next?)
      ensures r.CallFailed? ==>
                Did(old(Now()), old(log), Failing(request, elapsed, FailureOf(reply, cancelled, late)), None, Now(), log)
      ensures r.Response? || r.CallFailed? || (r.Rejected? && Now() == old(Now()) && log == old(log))
      ensures r.Rejected? ==>
                if reply.Replied? && !cancelled && !late && Validates(reply.calls, seen.messages, permitted)
                then Sessions.Complete(old(Now()), request, reply.text, reply.calls, elapsed) == Refuse(r.fault)
                else Sessions.Fail(old(Now()), request, elapsed, FailureOf(reply, cancelled, late)) == Refuse(r.fault)
    {
      hide Follows, Validates, Did, FailureOf;
      if reply.Replied? && !cancelled && !late && Validates(reply.calls, seen.messages, permitted) {
        DistinctIfValid(reply.calls, seen.messages, permitted);
        var c := Completing(request, reply.text, reply.calls, elapsed);
        var fault := Complete(request, reply.text, reply.calls, elapsed);
        DidExtends(old(Now()), old(log), c, fault, Now(), log);
        DidNext(old(Now()), old(log), c, fault, Now(), log);
        if fault.Some? {
          return Rejected(fault.value);
        }
        DidComplete(old(Now()), old(log), c, fault, Now(), log);
        return Response(Answer(reply.text, reply.calls));
      }
      var failure := FailureOf(reply, cancelled, late);
      var fault := Fail(request, elapsed, failure);
      DidExtends(old(Now()), old(log), Failing(request, elapsed, failure), fault, Now(), log);
      r := if fault.Some? then Rejected(fault.value) else CallFailed;
    }
  }
}
