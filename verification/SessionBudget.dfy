/** How far the active seconds of a model run are capped: a reservation never goes
    past the limit, a settlement may. */
module SessionBudget {
  import opened Results
  import opened Transcripts
  import opened Sessions
  import opened SessionHistory

  predicate Capped(run: Run) {
    run.activeSeconds <= run.limits.activeSeconds
  }

  /** By how much a settlement charges more than was reserved for it. */
  function Overrun(run: Run, c: Change): int {
    match c
    case Failing(request, elapsed, _) => if request in run.requests then elapsed - run.requests[request].identity.timeout else 0
    case Completing(request, _, _, elapsed) =>
      if request in run.requests then elapsed - run.requests[request].identity.timeout else 0
    case _ => 0
  }

  lemma ChargedBy(run: Run, c: Change)
    requires Apply(run, c).Next?
    ensures var next := Apply(run, c).run;
            && next.limits == run.limits
            && next.activeSeconds == run.activeSeconds + (if c.Reserving? then c.identity.timeout else Overrun(run, c))
            && (c.Reserving? ==> Capped(next))
  {
    hide Accepts, NewTools, Append, Retries, CallIds, OpenRequests, Unfinished, ClaimedTools;
  }

  /** The cap is left exactly when a settlement's overrun is larger than the room
      that is left. */
  lemma CapLeftExactly(run: Run, c: Change)
    requires Capped(run) && Apply(run, c).Next?
    ensures !Capped(Apply(run, c).run) <==> Overrun(run, c) > run.limits.activeSeconds - run.activeSeconds
  {
    hide Apply;
    ChargedBy(run, c);
  }

  /** All seconds that settlements charged beyond their reservations. */
  function Overruns(limits: Limits, log: seq<Event>, n: nat): nat
    requires n <= |log|
  {
    if n == 0 then 0 else
    var over := if log[n - 1].Commit? then Overrun(After(limits, log, n - 1).run, log[n - 1].change) else 0;
    Overruns(limits, log, n - 1) + if over > 0 then over else 0
  }

  /** In every state of every history the active seconds are at most the limit and
      the overruns so far; without an overrun the cap holds. */
  lemma {:induction false} CappedButForOverruns(limits: Limits, log: seq<Event>, n: nat)
    requires LegalLog(limits, log) && n <= |log|
    ensures After(limits, log, n).run.limits == limits
    ensures After(limits, log, n).run.activeSeconds <= limits.activeSeconds + Overruns(limits, log, n)
    ensures Overruns(limits, log, n) == 0 ==> Capped(After(limits, log, n).run)
  {
    hide Apply, After, LegalLog, Record, AttemptOf, Overrun;
    if n == 0 {
      Beginning(limits, log);
    } else {
      CappedButForOverruns(limits, log, n - 1);
      StepAfter(limits, log, n - 1);
      if log[n - 1].Commit? {
        ChargedBy(After(limits, log, n - 1).run, log[n - 1].change);
      }
    }
  }

  // ---- A history past the cap ----

  const TIGHT := Limits(1, 1, 1, 1)

  const OPENED := Session("definition", [System("prompt"), User("checkpoint")])

  const ASKED := Identity("session", 1, 1)

  const LATE := [Commit(Opening("session", "definition", "prompt", "checkpoint")),
                 Commit(Reserving("request", ASKED, OPENED, None)),
                 Commit(Failing("request", 5, Failure(false, false, None)))]

  const IDLE := Created(TIGHT).(sessions := map["session" := OPENED], activeSession := Some("session"))

  const WAITING := IDLE.(modelCalls := 1, activeSeconds := 1, requests := map["request" := Request(ASKED, Pending, 1, None)])

  const SETTLED := WAITING.(activeSeconds := 5, requests := map["request" := Request(ASKED, Failed, 1, None)])

  lemma LateOpened()
    ensures Apply(Created(TIGHT), LATE[0].change) == Next(IDLE)
  {
    assert OpenRequests(Created(TIGHT)) == {} && Unfinished(Created(TIGHT)) == {};
  }

  lemma LateReserved()
    ensures Apply(IDLE, LATE[1].change) == Next(WAITING)
  {
    hide Accepts;
    OpeningAccepted();
    assert OpenRequests(IDLE) == {} && Unfinished(IDLE) == {};
    assert map["request" := Request(ASKED, Pending, 1, None)] == IDLE.requests["request" := Request(ASKED, Pending, 1, None)];
  }

  lemma OpeningAccepted()
    ensures Accepts(OPENED.messages)
  {
    hide Whole;
    Transcripts.Opening("prompt", "checkpoint");
  }

  lemma LateFailed()
    ensures Apply(WAITING, LATE[2].change) == Next(SETTLED)
  {
    var id := "request";
    assert WAITING.requests[id := Request(ASKED, Failed, 1, None)] == SETTLED.requests;
  }

  /** The cap is not kept in general: one second is allowed and reserved, and five
      are charged. */
  lemma CapBroken()
    ensures LegalLog(TIGHT, LATE)
    ensures After(TIGHT, LATE, 3).run.activeSeconds == 5 && TIGHT.activeSeconds == 1
  {
    hide Apply, LegalAt;
    LateOpened();
    LateReserved();
    LateFailed();
    assert After(TIGHT, LATE, 0).run == Created(TIGHT);
    assert After(TIGHT, LATE, 1).run == IDLE;
    assert After(TIGHT, LATE, 2).run == WAITING;
    assert After(TIGHT, LATE, 3).run == SETTLED;
    forall n | 0 <= n < |LATE|
      ensures LegalAt(TIGHT, LATE, n)
    {
      LateLegal(n);
    }
  }

  lemma LateLegal(n: nat)
    requires n < |LATE|
    requires After(TIGHT, LATE, 0).run == Created(TIGHT) && After(TIGHT, LATE, 1).run == IDLE && After(TIGHT, LATE, 2).run == WAITING
    ensures LegalAt(TIGHT, LATE, n)
  {
    hide Apply, After;
    LateOpened();
    LateReserved();
    LateFailed();
  }
}
