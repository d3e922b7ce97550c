/** Model runs: budgets, requests, tool claims and transcripts, one committed
    change at a time, whichever driver or operator makes it. */
module Sessions {
  import opened Results
  import opened Transcripts

  datatype Limits = Limits(modelCalls: nat, toolCalls: nat, activeSeconds: nat, retryAttempts: nat)

  datatype Session = Session(definition: string, messages: seq<Message>)

  datatype Identity = Identity(session: string, maxOutput: nat, timeout: nat)

  datatype Status = Pending | RetryWait | Completed | Failed | Abandoned

  datatype Answer = Answer(text: string, calls: seq<Call>)

  datatype Request = Request(identity: Identity, status: Status, attempt: nat, answer: Option<Answer>)

  datatype ToolStatus = Ready | Claimed | Done(digest: string)

  datatype Tool = Tool(session: string, call: Call, status: ToolStatus)

  datatype Run = Run(limits: Limits, modelCalls: nat, toolCalls: nat, activeSeconds: int, activeSession: Option<string>,
                     sessions: map<string, Session>, requests: map<string, Request>, tools: map<string, Tool>)

  /** How an adapter failed: whether a retry may help, whether it is known to have
      had no effect, and the delay asked for, if that is an integer. */
  datatype Failure = Failure(retryable: bool, effectNone: bool, delay: Option<int>)

  datatype Fault = SessionChanged | RequestCollision | ToolsPending | RequestPending | OverBudget | RetryExhausted
                 | ToolCollision | ToolMissing | ToolAlreadyClaimed | ToolNotClaimed | RequestState | RequestRejected
                 | NoSuchRequest

  datatype Outcome = Next(run: Run) | Refuse(fault: Fault)

  function Created(limits: Limits): Run {
    Run(limits, 0, 0, 0, None, map[], map[], map[])
  }

  function Lookup<T>(table: map<string, T>, key: string): Option<T> {
    if key in table then Some(table[key]) else None
  }

  predicate IsOpen(r: Request) {
    r.status.Pending? || r.status.RetryWait?
  }

  function OpenRequests(run: Run): set<string> {
    set id | id in run.requests && IsOpen(run.requests[id])
  }

  function Unfinished(run: Run): set<string> {
    set id | id in run.tools && !run.tools[id].status.Done?
  }

  function ClaimedTools(run: Run): set<string> {
    set id | id in run.tools && run.tools[id].status.Claimed?
  }

  // ---- The committed changes ----

  function OpenSession(run: Run, id: string, definition: string, prompt: string, checkpoint: string): Outcome {
    if id in run.sessions then
      if run.activeSession == Some(id) && run.sessions[id].definition == definition then Next(run) else Refuse(SessionChanged)
    else if OpenRequests(run) != {} then Refuse(RequestPending)
    else if Unfinished(run) != {} then Refuse(ToolsPending)
    else Next(run.(sessions := run.sessions[id := Session(definition, [System(prompt), User(checkpoint)])],
                   activeSession := Some(id)))
  }

  /** Before an attempt is reserved: what the driver read must still be so. */
  function Reserve(run: Run, id: string, identity: Identity, seen: Session, existing: Option<Request>): Outcome {
    if existing.Some? && existing.value.identity != identity then Refuse(RequestCollision)
    else if existing.Some? && !existing.value.status.RetryWait? then Refuse(RequestState)
    else if !Accepts(seen.messages) then Refuse(RequestRejected)
    else if run.activeSession != Some(identity.session) || Lookup(run.sessions, identity.session) != Some(seen) then
      Refuse(SessionChanged)
    else if Lookup(run.requests, id) != existing then Refuse(RequestCollision)
    else if Unfinished(run) != {} then Refuse(ToolsPending)
    else if OpenRequests(run) - {id} != {} then Refuse(RequestPending)
    else if run.modelCalls >= run.limits.modelCalls || run.activeSeconds + identity.timeout > run.limits.activeSeconds then
      Refuse(OverBudget)
    else
      var attempt := (if existing.Some? then existing.value.attempt else 0) + 1;
      if attempt > run.limits.retryAttempts then Refuse(RetryExhausted)
      else Next(run.(modelCalls := run.modelCalls + 1, activeSeconds := run.activeSeconds + identity.timeout,
                     requests := run.requests[id := Request(identity, Pending, attempt, None)]))
  }

  predicate Retries(limits: Limits, r: Request, f: Failure) {
    f.retryable && f.effectNone && f.delay.Some? && 0 <= f.delay.value <= 60 && r.attempt < limits.retryAttempts
  }

  function Fail(run: Run, id: string, elapsed: nat, f: Failure): Outcome {
    if id !in run.requests then Refuse(NoSuchRequest)
    else if !run.requests[id].status.Pending? then Refuse(RequestCollision)
    else
      var r := run.requests[id];
      Next(run.(activeSeconds := run.activeSeconds + elapsed - r.identity.timeout,
                requests := run.requests[id := r.(status := if Retries(run.limits, r, f) then RetryWait else Failed)]))
  }

  function NewTools(session: string, calls: seq<Call>, n: nat): map<string, Tool>
    requires n <= |calls|
  {
    if n == 0 then map[] else NewTools(session, calls, n - 1)[calls[n - 1].id := Tool(session, calls[n - 1], Ready)]
  }

  function Append(sessions: map<string, Session>, id: string, m: Message): map<string, Session> {
    if id in sessions then sessions[id := sessions[id].(messages := sessions[id].messages + [m])] else sessions
  }

  function Complete(run: Run, id: string, text: string, calls: seq<Call>, elapsed: nat): Outcome {
    if id !in run.requests then Refuse(NoSuchRequest)
    else if !run.requests[id].status.Pending? then Refuse(RequestCollision)
    else if !(CallIds(calls) !! run.tools.Keys) then Refuse(ToolCollision)
    else
      var r := run.requests[id];
      Next(run.(activeSeconds := run.activeSeconds + elapsed - r.identity.timeout,
                requests := run.requests[id := r.(status := Completed, answer := Some(Answer(text, calls)))],
                sessions := Append(run.sessions, r.identity.session, Assistant(text, calls)),
                tools := run.tools + NewTools(r.identity.session, calls, |calls|)))
  }

  function Claim(run: Run, id: string): Outcome {
    if id !in run.tools then Refuse(ToolMissing)
    else if !run.tools[id].status.Ready? then Refuse(ToolAlreadyClaimed)
    else if run.toolCalls >= run.limits.toolCalls then Refuse(OverBudget)
    else if ClaimedTools(run) != {} then Refuse(ToolsPending)
    else Next(run.(toolCalls := run.toolCalls + 1, tools := run.tools[id := run.tools[id].(status := Claimed)]))
  }

  function Finish(run: Run, id: string, text: string, digest: string): Outcome {
    if id !in run.tools then Refuse(ToolMissing)
    else if run.tools[id].status.Done? then
      if run.tools[id].status.digest == digest then Next(run) else Refuse(ToolCollision)
    else if !run.tools[id].status.Claimed? then Refuse(ToolNotClaimed)
    else Next(run.(tools := run.tools[id := run.tools[id].(status := Done(digest))],
                   sessions := Append(run.sessions, run.tools[id].session, ToolResult(id, text))))
  }

  function Abandon(run: Run, id: string): Outcome {
    if id !in run.requests then Refuse(NoSuchRequest)
    else if !IsOpen(run.requests[id]) then Refuse(RequestState)
    else Next(run.(requests := run.requests[id := run.requests[id].(status := Abandoned)]))
  }

  datatype Change =
    | Opening(id: string, definition: string, prompt: string, checkpoint: string)
    | Reserving(request: string, identity: Identity, seen: Session, existing: Option<Request>)
    | Failing(request: string, elapsed: nat, failure: Failure)
    | Completing(request: string, text: string, calls: seq<Call>, elapsed: nat)
    | Claiming(tool: string)
    | Finishing(tool: string, text: string, digest: string)
    | Abandoning(request: string)

  function Apply(run: Run, c: Change): Outcome {
    match c
    case Opening(id, definition, prompt, checkpoint) => OpenSession(run, id, definition, prompt, checkpoint)
    case Reserving(request, identity, seen, existing) => Reserve(run, request, identity, seen, existing)
    case Failing(request, elapsed, failure) => Fail(run, request, elapsed, failure)
    case Completing(request, text, calls, elapsed) => Complete(run, request, text, calls, elapsed)
    case Claiming(tool) => Claim(run, tool)
    case Finishing(tool, text, digest) => Finish(run, tool, text, digest)
    case Abandoning(request) => Abandon(run, request)
  }

  /** A response never repeats a call identity. */
  predicate WellFormed(c: Change) {
    c.Completing? ==> DistinctCalls(c.calls)
  }

  // ---- What every committed change keeps ----

  function OfSession(tools: map<string, Tool>, session: string): set<string> {
    set id | id in tools && tools[id].session == session
  }

  function UnfinishedOf(tools: map<string, Tool>, session: string): set<string> {
    set id | id in tools && tools[id].session == session && !tools[id].status.Done?
  }

  function Touched(tools: map<string, Tool>): set<string> {
    set id | id in tools && !tools[id].status.Ready?
  }

  /** Replaying a transcript ends with exactly the session's unfinished calls
      waiting and exactly its calls seen. */
  predicate Faithful(tools: map<string, Tool>, sessions: map<string, Session>) {
    forall s <- sessions ::
      sessions[s].messages != [] && Whole(sessions[s].messages) == Scan(UnfinishedOf(tools, s), OfSession(tools, s))
  }

  /** One thing at a time: at most one open request, none while a tool is
      unfinished, and at most one claimed tool. */
  predicate OneAtATime(run: Run) {
    && (forall a, b :: a in OpenRequests(run) && b in OpenRequests(run) ==> a == b)
    && (OpenRequests(run) == {} || Unfinished(run) == {})
    && (forall a, b :: a in ClaimedTools(run) && b in ClaimedTools(run) ==> a == b)
  }

  predicate WithinBudget(run: Run) {
    && run.modelCalls <= run.limits.modelCalls
    && run.toolCalls == |Touched(run.tools)| <= run.limits.toolCalls
    && forall id <- run.requests :: 1 <= run.requests[id].attempt <= run.limits.retryAttempts
  }

  predicate Connected(run: Run) {
    && (forall id <- run.tools :: run.tools[id].session in run.sessions && run.tools[id].call.id == id)
    && (forall id <- run.requests :: run.requests[id].identity.session in run.sessions)
    && (forall id <- run.requests :: run.requests[id].status.Completed? ==> run.requests[id].answer.Some?)
    && (run.activeSession.Some? ==> run.activeSession.value in run.sessions)
  }

  predicate Inv(run: Run) {
    Faithful(run.tools, run.sessions) && OneAtATime(run) && WithinBudget(run) && Connected(run)
  }

  lemma InvCreated(limits: Limits)
    ensures Inv(Created(limits))
  {
    assert Touched(map[]) == {};
  }

  // ---- New tools ----

  lemma {:induction false} NewToolsKeys(session: string, calls: seq<Call>, n: nat)
    requires n <= |calls|
    ensures NewTools(session, calls, n).Keys == FirstIds(calls, n)
    ensures forall id <- NewTools(session, calls, n) ::
              var t := NewTools(session, calls, n)[id]; t.session == session && t.status == Ready && t.call.id == id
  {
    if n > 0 {
      NewToolsKeys(session, calls, n - 1);
      assert FirstIds(calls, n) == FirstIds(calls, n - 1) + {calls[n - 1].id};
    }
  }

  lemma AddedTools(tools: map<string, Tool>, session: string, calls: seq<Call>)
    requires CallIds(calls) !! tools.Keys
    ensures var more := tools + NewTools(session, calls, |calls|);
            && more.Keys == tools.Keys + CallIds(calls)
            && (forall id <- tools :: more[id] == tools[id])
            && (forall id <- CallIds(calls) ::
                  more[id].session == session && more[id].status == Ready && more[id].call.id == id)
  {
    hide NewTools, FirstIds, CallIds;
    NewToolsKeys(session, calls, |calls|);
    AllIds(calls);
  }

  lemma SessionsAfterAdding(tools: map<string, Tool>, more: map<string, Tool>, ids: set<string>, session: string)
    requires more.Keys == tools.Keys + ids && tools.Keys !! ids
    requires forall id <- tools :: more[id] == tools[id]
    requires forall id <- ids :: more[id].session == session && more[id].status == Ready
    ensures forall s :: s != session ==> UnfinishedOf(more, s) == UnfinishedOf(tools, s) && OfSession(more, s) == OfSession(tools, s)
    ensures UnfinishedOf(more, session) == UnfinishedOf(tools, session) + ids
    ensures OfSession(more, session) == OfSession(tools, session) + ids
    ensures Touched(more) == Touched(tools)
  {
    forall s | s != session
      ensures UnfinishedOf(more, s) == UnfinishedOf(tools, s) && OfSession(more, s) == OfSession(tools, s)
    {
    }
  }

  // ---- Transcripts ----

  lemma NothingUnfinished(run: Run, s: string)
    requires Unfinished(run) == {}
    ensures UnfinishedOf(run.tools, s) == {}
  {
    assert UnfinishedOf(run.tools, s) <= Unfinished(run);
  }

  lemma FaithfulOpening(run: Run, id: string, definition: string, prompt: string, checkpoint: string)
    requires Faithful(run.tools, run.sessions) && Connected(run) && id !in run.sessions
    ensures Faithful(run.tools, run.sessions[id := Session(definition, [System(prompt), User(checkpoint)])])
  {
    hide Whole;
    Transcripts.Opening(prompt, checkpoint);
    assert OfSession(run.tools, id) == {} && UnfinishedOf(run.tools, id) == {};
  }

  lemma FaithfulAnswer(run: Run, session: string, text: string, calls: seq<Call>)
    requires Faithful(run.tools, run.sessions) && session in run.sessions && Unfinished(run) == {}
    requires DistinctCalls(calls) && CallIds(calls) !! run.tools.Keys
    ensures Faithful(run.tools + NewTools(session, calls, |calls|),
                     Append(run.sessions, session, Assistant(text, calls)))
  {
    hide Whole, NewTools, DistinctCalls, UnfinishedOf, OfSession, Touched, CallIds;
    var more := run.tools + NewTools(session, calls, |calls|);
    AddedTools(run.tools, session, calls);
    SessionsAfterAdding(run.tools, more, CallIds(calls), session);
    NothingUnfinished(run, session);
    OfSessionKeys(run.tools, session);
    AfterAnswer(run.sessions[session].messages, text, calls);
  }

  lemma OfSessionKeys(tools: map<string, Tool>, s: string)
    ensures OfSession(tools, s) <= tools.Keys
  {
  }

  lemma StatusOnly(tools: map<string, Tool>, id: string, status: ToolStatus)
    requires id in tools
    ensures var next := tools[id := tools[id].(status := status)];
            && (forall s :: OfSession(next, s) == OfSession(tools, s))
            && (forall s :: s != tools[id].session ==> UnfinishedOf(next, s) == UnfinishedOf(tools, s))
  {
    var next := tools[id := tools[id].(status := status)];
    forall s ensures OfSession(next, s) == OfSession(tools, s) {
    }
    forall s | s != tools[id].session ensures UnfinishedOf(next, s) == UnfinishedOf(tools, s) {
    }
  }

  lemma StatusOfOwn(tools: map<string, Tool>, id: string, status: ToolStatus)
    requires id in tools && !tools[id].status.Done?
    ensures var next := tools[id := tools[id].(status := status)];
            && id in UnfinishedOf(tools, tools[id].session)
            && UnfinishedOf(next, tools[id].session)
               == if status.Done? then UnfinishedOf(tools, tools[id].session) - {id} else UnfinishedOf(tools, tools[id].session)
  {
  }

  lemma FaithfulClaim(run: Run, id: string)
    requires Faithful(run.tools, run.sessions) && id in run.tools && run.tools[id].status.Ready?
    ensures Faithful(run.tools[id := run.tools[id].(status := Claimed)], run.sessions)
  {
    hide Whole, UnfinishedOf, OfSession;
    StatusOnly(run.tools, id, Claimed);
    StatusOfOwn(run.tools, id, Claimed);
  }

  lemma FaithfulFinish(run: Run, id: string, text: string, digest: string)
    requires Faithful(run.tools, run.sessions) && Connected(run)
    requires id in run.tools && run.tools[id].status.Claimed?
    ensures Faithful(run.tools[id := run.tools[id].(status := Done(digest))],
                     Append(run.sessions, run.tools[id].session, ToolResult(id, text)))
  {
    hide Whole, UnfinishedOf, OfSession;
    var s := run.tools[id].session;
    StatusOnly(run.tools, id, Done(digest));
    StatusOfOwn(run.tools, id, Done(digest));
    AfterResult(run.sessions[s].messages, id, text);
  }

  lemma FaithfulKept(run: Run, c: Change)
    requires Inv(run) && WellFormed(c) && Apply(run, c).Next?
    ensures Faithful(Apply(run, c).run.tools, Apply(run, c).run.sessions)
  {
    hide Faithful, WithinBudget, Whole, DistinctCalls, NewTools, Append, Retries, Accepts, CallIds, Connected;
    ConnectedFacts(run);
    match c {
      case Opening(id, definition, prompt, checkpoint) =>
        if id !in run.sessions {
          FaithfulOpening(run, id, definition, prompt, checkpoint);
        }
      case Completing(request, text, calls, elapsed) =>
        OpenMeansFinished(run, request);
        FaithfulAnswer(run, run.requests[request].identity.session, text, calls);
      case Claiming(tool) => FaithfulClaim(run, tool);
      case Finishing(tool, text, digest) =>
        if !run.tools[tool].status.Done? {
          FaithfulFinish(run, tool, text, digest);
        }
      case _ =>
    }
  }

  lemma ConnectedFacts(run: Run)
    requires Connected(run)
    ensures forall id <- run.tools :: run.tools[id].session in run.sessions && run.tools[id].call.id == id
    ensures forall id <- run.requests :: run.requests[id].identity.session in run.sessions
  {
  }

  lemma OpenMeansFinished(run: Run, request: string)
    requires OneAtATime(run) && request in run.requests && IsOpen(run.requests[request])
    ensures Unfinished(run) == {} && OpenRequests(run) == {request}
  {
    assert request in OpenRequests(run);
  }

  // ---- One at a time ----

  lemma OneAtATimeKept(run: Run, c: Change)
    requires Inv(run) && Apply(run, c).Next?
    ensures OneAtATime(Apply(run, c).run)
  {
    hide Faithful, WithinBudget, Connected, NewTools, Append, Retries, Accepts, CallIds, OneAtATime;
    match c {
      case Opening(id, definition, prompt, checkpoint) => SameWork(run, Apply(run, c).run);
      case Reserving(request, identity, seen, existing) => OneReserved(run, c);
      case Failing(request, elapsed, failure) => OneClosed(run, Apply(run, c).run, request, Apply(run, c).run.requests[request]);
      case Completing(request, text, calls, elapsed) => OneCompleted(run, c);
      case Claiming(tool) => OneClaimed(run, tool);
      case Finishing(tool, text, digest) => OneFinished(run, c);
      case Abandoning(request) => OneClosed(run, Apply(run, c).run, request, Apply(run, c).run.requests[request]);
    }
  }

  lemma SameWork(run: Run, next: Run)
    requires OneAtATime(run) && next.requests == run.requests && next.tools == run.tools
    ensures OneAtATime(next)
  {
    assert OpenRequests(next) == OpenRequests(run) && Unfinished(next) == Unfinished(run) && ClaimedTools(next) == ClaimedTools(run);
  }

  lemma OneReserved(run: Run, c: Change)
    requires OneAtATime(run) && c.Reserving? && Apply(run, c).Next?
    ensures OneAtATime(Apply(run, c).run)
  {
    hide Accepts, Retries;
    var next := Apply(run, c).run;
    assert Unfinished(next) == Unfinished(run) && ClaimedTools(next) == ClaimedTools(run);
    assert OpenRequests(next) <= OpenRequests(run) + {c.request} && OpenRequests(run) <= {c.request};
  }

  lemma OneClosed(run: Run, next: Run, request: string, r: Request)
    requires OneAtATime(run) && request in run.requests && IsOpen(run.requests[request]) && next.tools == run.tools
    requires next.requests == run.requests[request := r]
    ensures OneAtATime(next)
  {
    assert request in OpenRequests(run);
    assert Unfinished(next) == Unfinished(run) && ClaimedTools(next) == ClaimedTools(run);
    assert OpenRequests(next) <= OpenRequests(run);
  }

  lemma OneCompleted(run: Run, c: Change)
    requires OneAtATime(run) && c.Completing? && Apply(run, c).Next?
    ensures OneAtATime(Apply(run, c).run)
  {
    hide NewTools, Append, CallIds;
    var next := Apply(run, c).run;
    OpenMeansFinished(run, c.request);
    var done := run.requests[c.request].(status := Completed, answer := Some(Answer(c.text, c.calls)));
    assert next.requests == run.requests[c.request := done];
    forall id <- OpenRequests(next)
      ensures id in OpenRequests(run) && id != c.request
    {
    }
    AddedTools(run.tools, run.requests[c.request].identity.session, c.calls);
    assert ClaimedTools(next) == {};
  }

  lemma OneClaimed(run: Run, tool: string)
    requires OneAtATime(run) && Claim(run, tool).Next?
    ensures OneAtATime(Claim(run, tool).run)
  {
    var next := Claim(run, tool).run;
    assert tool in Unfinished(run) && OpenRequests(next) == OpenRequests(run) == {};
    assert ClaimedTools(next) == {tool};
  }

  lemma OneFinished(run: Run, c: Change)
    requires OneAtATime(run) && c.Finishing? && Apply(run, c).Next?
    ensures OneAtATime(Apply(run, c).run)
  {
    hide Append;
    var next := Apply(run, c).run;
    assert OpenRequests(next) == OpenRequests(run);
    assert Unfinished(next) <= Unfinished(run) && ClaimedTools(next) <= ClaimedTools(run);
  }

  // ---- Budgets ----

  lemma OneMoreTouched(tools: map<string, Tool>, id: string)
    requires id in tools && tools[id].status.Ready?
    ensures |Touched(tools[id := tools[id].(status := Claimed)])| == |Touched(tools)| + 1
  {
    assert Touched(tools[id := tools[id].(status := Claimed)]) == Touched(tools) + {id};
  }

  lemma SameTouched(tools: map<string, Tool>, id: string, status: ToolStatus)
    requires id in tools && tools[id].status.Claimed? && status.Done?
    ensures Touched(tools[id := tools[id].(status := status)]) == Touched(tools)
  {
  }

  lemma BudgetKept(run: Run, c: Change)
    requires Inv(run) && Apply(run, c).Next?
    ensures WithinBudget(Apply(run, c).run)
  {
    hide Faithful, OneAtATime, Connected, NewTools, Append, Retries, Accepts, Touched, CallIds, Unfinished, OpenRequests;
    match c {
      case Claiming(tool) => OneMoreTouched(run.tools, tool);
      case Finishing(tool, text, digest) =>
        if run.tools[tool].status.Claimed? {
          SameTouched(run.tools, tool, Done(digest));
        }
      case Completing(request, text, calls, elapsed) =>
        var session := run.requests[request].identity.session;
        AddedTools(run.tools, session, calls);
        SessionsAfterAdding(run.tools, run.tools + NewTools(session, calls, |calls|), CallIds(calls), session);
      case _ =>
    }
  }

  lemma ConnectedKept(run: Run, c: Change)
    requires Inv(run) && Apply(run, c).Next?
    ensures Connected(Apply(run, c).run)
  {
    hide Faithful, OneAtATime, WithinBudget, NewTools, Retries, Accepts, CallIds, Unfinished, OpenRequests;
    if c.Completing? {
      AddedTools(run.tools, run.requests[c.request].identity.session, c.calls);
    }
  }

  lemma InvKept(run: Run, c: Change)
    requires Inv(run) && WellFormed(c) && Apply(run, c).Next?
    ensures Inv(Apply(run, c).run)
  {
    hide Faithful, OneAtATime, WithinBudget, Connected, Apply;
    FaithfulKept(run, c);
    OneAtATimeKept(run, c);
    BudgetKept(run, c);
    ConnectedKept(run, c);
  }

  /** A session's transcript is accepted exactly when all its tools are done; so an
      idle run's transcripts are never rejected. */
  lemma TranscriptAccepted(run: Run, s: string)
    requires Inv(run) && s in run.sessions
    ensures Accepts(run.sessions[s].messages) <==> UnfinishedOf(run.tools, s) == {}
    ensures Unfinished(run) == {} ==> Accepts(run.sessions[s].messages)
  {
    hide Whole, OneAtATime, WithinBudget, Connected, UnfinishedOf, OfSession;
    if Unfinished(run) == {} {
      NothingUnfinished(run, s);
    }
  }
}
