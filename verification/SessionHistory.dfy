/** Whole histories of a model run: what every attempt is charged, and that the
    adapter is called at most once for it. */
module SessionHistory {
  import opened Results
  import opened Transcripts
  import opened Sessions

  /** One reserved attempt: charged its timeout until it is settled. */
  datatype Attempt = Attempt(request: string, number: nat, timeout: nat, elapsed: Option<nat>)

  function Charge(a: Attempt): nat {
    if a.elapsed.Some? then a.elapsed.value else a.timeout
  }

  function Total(ledger: seq<Attempt>, n: nat): nat
    requires n <= |ledger|
  {
    if n == 0 then 0 else Total(ledger, n - 1) + Charge(ledger[n - 1])
  }

  function Settled(ledger: seq<Attempt>, request: string, number: nat, elapsed: nat): (r: seq<Attempt>)
    ensures |r| == |ledger|
  {
    seq(|ledger|, k requires 0 <= k < |ledger| =>
      if ledger[k].request == request && ledger[k].number == number then ledger[k].(elapsed := Some(elapsed)) else ledger[k])
  }

  /** The run, the ledger of its attempts, and the attempts a live driver has
      reserved but not yet sent to the adapter. */
  datatype World = World(run: Run, ledger: seq<Attempt>, waiting: set<(string, nat)>)

  datatype Event = Commit(change: Change) | CallAdapter(request: string, attempt: nat) | Crash

  ghost predicate Legal(w: World, e: Event) {
    match e
    case Commit(c) => WellFormed(c) && Apply(w.run, c).Next?
    case CallAdapter(request, attempt) => (request, attempt) in w.waiting
    case Crash => true
  }

  function AttemptOf(run: Run, request: string): nat {
    if request in run.requests then run.requests[request].attempt else 0
  }

  function Record(run: Run, ledger: seq<Attempt>, c: Change): seq<Attempt> {
    match c
    case Reserving(request, identity, seen, existing) =>
      ledger + [Attempt(request, AttemptOf(run, request) + 1, identity.timeout, None)]
    case Failing(request, elapsed, failure) => Settled(ledger, request, AttemptOf(run, request), elapsed)
    case Completing(request, text, calls, elapsed) => Settled(ledger, request, AttemptOf(run, request), elapsed)
    case _ => ledger
  }

  function Step(w: World, e: Event): World {
    match e
    case Commit(c) =>
      if Apply(w.run, c).Refuse? then w else
      World(Apply(w.run, c).run, Record(w.run, w.ledger, c),
            if c.Reserving? then w.waiting + {(c.request, AttemptOf(w.run, c.request) + 1)} else w.waiting)
    case CallAdapter(request, attempt) => w.(waiting := w.waiting - {(request, attempt)})
    case Crash => w.(waiting := {})
  }

  function After(limits: Limits, log: seq<Event>, n: nat): World
    requires n <= |log|
  {
    if n == 0 then World(Created(limits), [], {}) else Step(After(limits, log, n - 1), log[n - 1])
  }

  /** Event `n` is lawful where it stands. */
  ghost predicate LegalAt(limits: Limits, log: seq<Event>, n: nat)
    requires n < |log|
  {
    Legal(After(limits, log, n), log[n])
  }

  ghost predicate LegalLog(limits: Limits, log: seq<Event>) {
    forall n :: 0 <= n < |log| ==> LegalAt(limits, log, n)
  }

  lemma StepAfter(limits: Limits, log: seq<Event>, n: nat)
    requires LegalLog(limits, log) && n < |log|
    ensures After(limits, log, n + 1) == Step(After(limits, log, n), log[n])
    ensures Legal(After(limits, log, n), log[n])
  {
    hide Legal, Step;
    assert LegalAt(limits, log, n);
  }

  lemma {:induction false} InvAlways(limits: Limits, log: seq<Event>, n: nat)
    requires LegalLog(limits, log) && n <= |log|
    ensures Sessions.Inv(After(limits, log, n).run)
  {
    hide Sessions.Inv, Apply, After, LegalLog;
    if n == 0 {
      Sessions.InvCreated(limits);
      Beginning(limits, log);
    } else {
      InvAlways(limits, log, n - 1);
      StepAfter(limits, log, n - 1);
      if log[n - 1].Commit? {
        Sessions.InvKept(After(limits, log, n - 1).run, log[n - 1].change);
      }
    }
  }

  lemma Beginning(limits: Limits, log: seq<Event>)
    ensures After(limits, log, 0) == World(Created(limits), [], {})
  {
  }

  /** In every reachable state, whatever drivers and operators did, the transcript
      of every session is accepted exactly when its tools are done. */
  lemma TranscriptsAlways(limits: Limits, log: seq<Event>, n: nat, s: string)
    requires LegalLog(limits, log) && n <= |log| && s in After(limits, log, n).run.sessions
    ensures var run := After(limits, log, n).run;
            && Whole(run.sessions[s].messages) == Scan(UnfinishedOf(run.tools, s), OfSession(run.tools, s))
            && (Accepts(run.sessions[s].messages) <==> UnfinishedOf(run.tools, s) == {})
            && (Unfinished(run) == {} ==> Accepts(run.sessions[s].messages))
  {
    hide After, LegalLog, Whole, Accepts, UnfinishedOf, OfSession, Unfinished;
    InvAlways(limits, log, n);
    TranscriptAccepted(After(limits, log, n).run, s);
  }

  // ---- The ledger ----

  predicate IsUnsettled(a: Attempt, request: string, r: Request) {
    a.request == request && a.number == r.attempt && a.timeout == r.identity.timeout && a.elapsed.None?
  }

  predicate SameKey(a: Attempt, b: Attempt) {
    a.request == b.request && a.number == b.number
  }

  /** The counters are what the ledger says. */
  ghost predicate Books(run: Run, ledger: seq<Attempt>) {
    && run.modelCalls == |ledger| && run.activeSeconds == Total(ledger, |ledger|)
    && (forall k :: 0 <= k < |ledger| ==> ledger[k].number <= AttemptOf(run, ledger[k].request))
    && (forall i, j :: 0 <= i < j < |ledger| ==> !SameKey(ledger[i], ledger[j]))
    && forall id <- run.requests :: run.requests[id].status.Pending? ==>
         exists k :: 0 <= k < |ledger| && IsUnsettled(ledger[k], id, run.requests[id])
  }

  lemma {:induction false} TotalPrefix(ledger: seq<Attempt>, a: Attempt, n: nat)
    requires n <= |ledger|
    ensures Total(ledger + [a], n) == Total(ledger, n)
  {
    if n > 0 {
      TotalPrefix(ledger, a, n - 1);
    }
  }

  lemma {:induction false} TotalSettled(ledger: seq<Attempt>, k: nat, elapsed: nat, n: nat)
    requires k < |ledger| && n <= |ledger| && ledger[k].elapsed.None?
    requires forall i, j :: 0 <= i < j < |ledger| ==> !SameKey(ledger[i], ledger[j])
    ensures Total(Settled(ledger, ledger[k].request, ledger[k].number, elapsed), n)
         == Total(ledger, n) + if k < n then elapsed - ledger[k].timeout else 0
  {
    if n > 0 {
      TotalSettled(ledger, k, elapsed, n - 1);
      if n - 1 != k {
        assert !SameKey(ledger[n - 1], ledger[k]);
      }
    }
  }

  lemma SettledEntries(ledger: seq<Attempt>, request: string, number: nat, elapsed: nat)
    ensures var r := Settled(ledger, request, number, elapsed);
            forall k :: 0 <= k < |ledger| ==>
              (SameKey(r[k], ledger[k]) && (ledger[k].request != request ==> r[k] == ledger[k]))
  {
  }

  lemma BooksAfterReserve(run: Run, ledger: seq<Attempt>, c: Change)
    requires Books(run, ledger) && c.Reserving? && Apply(run, c).Next?
    ensures Books(Apply(run, c).run, Record(run, ledger, c))
  {
    hide Accepts, Total, OpenRequests, Unfinished;
    var next, longer := Apply(run, c).run, Record(run, ledger, c);
    var entry := longer[|ledger|];
    TotalPrefix(ledger, entry, |ledger|);
    TotalLast(ledger, entry);
    assert IsUnsettled(entry, c.request, next.requests[c.request]);
    forall id <- next.requests | next.requests[id].status.Pending?
      ensures exists k :: 0 <= k < |longer| && IsUnsettled(longer[k], id, next.requests[id])
    {
      if id != c.request {
        var k :| 0 <= k < |ledger| && IsUnsettled(ledger[k], id, run.requests[id]);
        assert IsUnsettled(longer[k], id, next.requests[id]);
      }
    }
  }

  lemma TotalLast(ledger: seq<Attempt>, a: Attempt)
    ensures Total(ledger + [a], |ledger| + 1) == Total(ledger + [a], |ledger|) + Charge(a)
  {
  }

  lemma BooksAfterSettling(run: Run, ledger: seq<Attempt>, next: Run, id: string, elapsed: nat, r: Request)
    requires Books(run, ledger) && id in run.requests && run.requests[id].status.Pending?
    requires next.requests == run.requests[id := r] && !r.status.Pending? && r.attempt == run.requests[id].attempt
    requires next.modelCalls == run.modelCalls
    requires next.activeSeconds == run.activeSeconds + elapsed - run.requests[id].identity.timeout
    ensures Books(next, Settled(ledger, id, AttemptOf(run, id), elapsed))
  {
    hide Total, Settled;
    var settled := Settled(ledger, id, AttemptOf(run, id), elapsed);
    var k :| 0 <= k < |ledger| && IsUnsettled(ledger[k], id, run.requests[id]);
    TotalSettled(ledger, k, elapsed, |ledger|);
    SettledEntries(ledger, id, AttemptOf(run, id), elapsed);
    forall other <- next.requests | next.requests[other].status.Pending?
      ensures exists i :: 0 <= i < |settled| && IsUnsettled(settled[i], other, next.requests[other])
    {
      var i :| 0 <= i < |ledger| && IsUnsettled(ledger[i], other, run.requests[other]);
      assert IsUnsettled(settled[i], other, next.requests[other]);
    }
  }

  lemma BooksUntouched(run: Run, ledger: seq<Attempt>, next: Run)
    requires Books(run, ledger)
    requires next.modelCalls == run.modelCalls && next.activeSeconds == run.activeSeconds
    requires next.requests.Keys == run.requests.Keys
    requires forall id <- run.requests ::
               next.requests[id] == run.requests[id]
               || (!next.requests[id].status.Pending? && next.requests[id].attempt == run.requests[id].attempt)
    ensures Books(next, ledger)
  {
    hide Total;
    forall id <- next.requests | next.requests[id].status.Pending?
      ensures exists k :: 0 <= k < |ledger| && IsUnsettled(ledger[k], id, next.requests[id])
    {
      var k :| 0 <= k < |ledger| && IsUnsettled(ledger[k], id, run.requests[id]);
    }
  }

  lemma BooksKept(run: Run, ledger: seq<Attempt>, c: Change)
    requires Books(run, ledger) && Apply(run, c).Next?
    ensures Books(Apply(run, c).run, Record(run, ledger, c))
  {
    hide Books, Settled, Accepts, NewTools, Append, Retries, CallIds, OpenRequests, Unfinished, ClaimedTools;
    var next := Apply(run, c).run;
    match c {
      case Reserving(request, identity, seen, existing) => BooksAfterReserve(run, ledger, c);
      case Failing(request, elapsed, failure) =>
        BooksAfterSettling(run, ledger, next, request, elapsed, next.requests[request]);
      case Completing(request, text, calls, elapsed) =>
        BooksAfterSettling(run, ledger, next, request, elapsed, next.requests[request]);
      case _ => BooksUntouched(run, ledger, next);
    }
  }

  /** Always: model_calls counts the reserved attempts, and active_seconds is the
      sum over all of them of the elapsed time if settled, else the timeout. */
  lemma {:induction false} LedgerAlways(limits: Limits, log: seq<Event>, n: nat)
    requires LegalLog(limits, log) && n <= |log|
    ensures Books(After(limits, log, n).run, After(limits, log, n).ledger)
  {
    hide Books, Apply, After, LegalLog, Record;
    if n == 0 {
      Beginning(limits, log);
      NoBooks(limits);
    } else {
      LedgerAlways(limits, log, n - 1);
      StepAfter(limits, log, n - 1);
      if log[n - 1].Commit? {
        var w := After(limits, log, n - 1);
        BooksKept(w.run, w.ledger, log[n - 1].change);
      }
    }
  }

  lemma NoBooks(limits: Limits)
    ensures Books(Created(limits), [])
  {
  }

  // ---- At most one adapter call per attempt ----

  /** Whoever may still call the adapter reserved that attempt. */
  predicate WaitingReserved(w: World) {
    forall p <- w.waiting :: 1 <= p.1 <= AttemptOf(w.run, p.0)
  }

  /** The attempt was made and its driver cannot call the adapter again. */
  predicate Spent(w: World, request: string, attempt: nat) {
    attempt <= AttemptOf(w.run, request) && (request, attempt) !in w.waiting
  }

  lemma AttemptsGrow(run: Run, c: Change)
    requires Apply(run, c).Next?
    ensures forall request :: AttemptOf(Apply(run, c).run, request)
              == AttemptOf(run, request) + if c.Reserving? && c.request == request then 1 else 0
  {
    hide Accepts, NewTools, Append, Retries, CallIds, OpenRequests, Unfinished, ClaimedTools;
  }

  lemma WaitingKept(w: World, e: Event)
    requires WaitingReserved(w) && Legal(w, e)
    ensures WaitingReserved(Step(w, e))
  {
    hide Apply, AttemptOf, Record;
    if e.Commit? {
      AttemptsGrow(w.run, e.change);
    }
  }

  lemma SpentKept(w: World, e: Event, request: string, attempt: nat)
    requires Spent(w, request, attempt) && Legal(w, e)
    ensures Spent(Step(w, e), request, attempt)
  {
    hide Apply, AttemptOf, Record;
    if e.Commit? {
      AttemptsGrow(w.run, e.change);
    }
  }

  lemma {:induction false} WaitingAlways(limits: Limits, log: seq<Event>, n: nat)
    requires LegalLog(limits, log) && n <= |log|
    ensures WaitingReserved(After(limits, log, n))
  {
    hide WaitingReserved, Step, Legal, After, LegalLog;
    if n == 0 {
      Beginning(limits, log);
      assert WaitingReserved(World(Created(limits), [], {})) by { NobodyWaiting(limits); }
    } else {
      WaitingAlways(limits, log, n - 1);
      StepAfter(limits, log, n - 1);
      WaitingKept(After(limits, log, n - 1), log[n - 1]);
    }
  }

  lemma NobodyWaiting(limits: Limits)
    ensures WaitingReserved(World(Created(limits), [], {}))
  {
  }

  lemma {:induction false} SpentAfterwards(limits: Limits, log: seq<Event>, i: nat, n: nat, request: string, attempt: nat)
    requires LegalLog(limits, log) && i < n <= |log| && log[i] == CallAdapter(request, attempt)
    ensures Spent(After(limits, log, n), request, attempt)
  {
    hide WaitingReserved, Spent, Step, Legal, After, LegalLog;
    StepAfter(limits, log, n - 1);
    if n == i + 1 {
      WaitingAlways(limits, log, i);
      SpentNow(After(limits, log, i), request, attempt);
    } else {
      SpentAfterwards(limits, log, i, n - 1, request, attempt);
      SpentKept(After(limits, log, n - 1), log[n - 1], request, attempt);
    }
  }

  lemma SpentNow(w: World, request: string, attempt: nat)
    requires WaitingReserved(w) && Legal(w, CallAdapter(request, attempt))
    ensures Spent(Step(w, CallAdapter(request, attempt)), request, attempt)
  {
  }

  lemma SpentNotCalled(w: World, request: string, attempt: nat)
    requires Spent(w, request, attempt)
    ensures !Legal(w, CallAdapter(request, attempt))
  {
  }

  /** Over any history with crashes and restarts no attempt reaches the adapter twice. */
  lemma CalledOnce(limits: Limits, log: seq<Event>, i: nat, j: nat)
    requires LegalLog(limits, log) && i < j < |log| && log[i].CallAdapter? && log[j].CallAdapter?
    ensures log[i] != log[j]
  {
    hide Spent, Legal, After, LegalLog;
    StepAfter(limits, log, j);
    SpentAfterwards(limits, log, i, j, log[i].request, log[i].attempt);
    SpentNotCalled(After(limits, log, j), log[i].request, log[i].attempt);
  }

  predicate Reserves(limits: Limits, log: seq<Event>, k: nat, request: string, attempt: nat)
    requires k < |log|
  {
    && log[k].Commit? && log[k].change.Reserving? && log[k].change.request == request
    && attempt == AttemptOf(After(limits, log, k).run, request) + 1
  }

  lemma {:induction false} WaitingBegan(limits: Limits, log: seq<Event>, n: nat, request: string, attempt: nat)
    requires LegalLog(limits, log) && n <= |log| && (request, attempt) in After(limits, log, n).waiting
    ensures exists k :: 0 <= k < n && Reserves(limits, log, k, request, attempt)
  {
    hide Apply, AttemptOf, Record, After, LegalLog;
    Beginning(limits, log);
    if n > 0 {
      StepAfter(limits, log, n - 1);
      if (request, attempt) in After(limits, log, n - 1).waiting {
        WaitingBegan(limits, log, n - 1, request, attempt);
      } else {
        assert Reserves(limits, log, n - 1, request, attempt);
      }
    }
  }

  /** Every adapter call comes after the commit that reserved its attempt. */
  lemma ReservedFirst(limits: Limits, log: seq<Event>, i: nat)
    requires LegalLog(limits, log) && i < |log| && log[i].CallAdapter?
    ensures exists k :: 0 <= k < i && Reserves(limits, log, k, log[i].request, log[i].attempt)
  {
    hide Reserves, After, LegalLog;
    StepAfter(limits, log, i);
    WaitingBegan(limits, log, i, log[i].request, log[i].attempt);
  }
}
