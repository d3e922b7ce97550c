/** The dispatch discipline of the service scheduler as a state machine:
    first-in first-out within a repository, round robin between repositories,
    four concurrency limits. */
module Scheduling {
  import opened Results

  datatype Kind = Control | Model | Command

  datatype Work = Work(id: string, repository: nat, kind: Kind, provider: string, timeout: Option<nat>)

  datatype Limits = Limits(total: nat, repository: nat, model: nat, providers: map<string, nat>)
  {
    predicate Positive() {
      && total >= 1 && repository >= 1 && model >= 1
      && forall p <- providers :: providers[p] >= 1
    }
  }

  datatype State = State(queues: map<nat, seq<Work>>, rotation: seq<nat>, active: map<string, Work>)

  const INITIAL := State(map[], [], map[])

  /** A submission, one look at the repository at the front of the rotation, or
      the end of an active work. */
  datatype Event = Submit(work: Work) | Examine(repository: nat) | Finish(id: string)

  // ---- Limits ----

  function OfRepository(active: map<string, Work>, repository: nat): set<string> {
    set id | id in active && active[id].repository == repository
  }

  function OfModel(active: map<string, Work>): set<string> {
    set id | id in active && active[id].kind.Model?
  }

  function OfProvider(active: map<string, Work>, provider: string): set<string> {
    set id | id in active && active[id].kind.Model? && active[id].provider == provider
  }

  predicate Eligible(limits: Limits, active: map<string, Work>, w: Work) {
    && |active| < limits.total
    && |OfRepository(active, w.repository)| < limits.repository
    && (w.kind.Model? ==>
          && |OfModel(active)| < limits.model
          && (w.provider in limits.providers ==> |OfProvider(active, w.provider)| < limits.providers[w.provider]))
  }

  ghost predicate WithinLimits(limits: Limits, active: map<string, Work>) {
    && |active| <= limits.total
    && (forall r :: |OfRepository(active, r)| <= limits.repository)
    && |OfModel(active)| <= limits.model
    && (forall p :: p in limits.providers ==> |OfProvider(active, p)| <= limits.providers[p])
  }

  // ---- Steps ----

  function QueueOf(s: State, repository: nat): seq<Work> {
    if repository in s.queues then s.queues[repository] else []
  }

  predicate Queued(s: State, id: string) {
    exists r, i :: r in s.queues && 0 <= i < |s.queues[r]| && s.queues[r][i].id == id
  }

  ghost predicate Legal(limits: Limits, s: State, e: Event) {
    match e
    case Submit(w) => !Queued(s, w.id) && w.id !in s.active
    case Examine(r) => s.rotation != [] && s.rotation[0] == r && QueueOf(s, r) != [] && |s.active| < limits.total
    case Finish(id) => id in s.active
  }

  predicate Dispatches(limits: Limits, s: State, e: Event) {
    e.Examine? && QueueOf(s, e.repository) != [] && Eligible(limits, s.active, QueueOf(s, e.repository)[0])
  }

  function Rotate(s: State, repository: nat): (t: State)
    ensures t.queues == s.queues && t.active == s.active
  {
    s.(rotation := (if s.rotation == [] then [] else s.rotation[1..]) + [repository])
  }

  function Dispatch(s: State, repository: nat): State
    requires QueueOf(s, repository) != []
  {
    var queue := QueueOf(s, repository);
    var active := s.active[queue[0].id := queue[0]];
    if |queue| == 1 then
      State(s.queues - {repository}, if s.rotation == [] then [] else s.rotation[1..], active)
    else
      Rotate(State(s.queues[repository := queue[1..]], s.rotation, active), repository)
  }

  function Step(limits: Limits, s: State, e: Event): State {
    match e
    case Submit(w) =>
      State(s.queues[w.repository := QueueOf(s, w.repository) + [w]],
            if w.repository in s.rotation then s.rotation else s.rotation + [w.repository], s.active)
    case Examine(r) => if Dispatches(limits, s, e) then Dispatch(s, r) else Rotate(s, r)
    case Finish(id) => s.(active := s.active - {id})
  }

  /** The state after the first `n` events. */
  function After(limits: Limits, log: seq<Event>, n: nat): State
    requires n <= |log|
  {
    if n == 0 then INITIAL else Step(limits, After(limits, log, n - 1), log[n - 1])
  }

  /** Event `n` is lawful where it stands. */
  ghost predicate LegalAt(limits: Limits, log: seq<Event>, n: nat)
    requires n < |log|
  {
    Legal(limits, After(limits, log, n), log[n])
  }

  ghost predicate LegalLog(limits: Limits, log: seq<Event>) {
    forall n :: 0 <= n < |log| ==> LegalAt(limits, log, n)
  }

  lemma StepAfter(limits: Limits, log: seq<Event>, n: nat)
    requires LegalLog(limits, log) && n < |log|
    ensures After(limits, log, n + 1) == Step(limits, After(limits, log, n), log[n])
    ensures Legal(limits, After(limits, log, n), log[n])
  {
    hide Legal, Step;
    assert LegalAt(limits, log, n);
  }

  // ---- What every state keeps ----

  predicate Distinct(rotation: seq<nat>) {
    forall i, j :: 0 <= i < j < |rotation| ==> rotation[i] != rotation[j]
  }

  predicate DistinctIds(queue: seq<Work>) {
    forall i, j :: 0 <= i < j < |queue| ==> queue[i].id != queue[j].id
  }

  function Ids(queue: seq<Work>): set<string> {
    set i | 0 <= i < |queue| :: queue[i].id
  }

  /** The rotation lists, once each, exactly the repositories with queued work. */
  ghost predicate RotationExact(s: State) {
    Distinct(s.rotation) && forall r :: r in s.rotation <==> r in s.queues
  }

  /** Queues hold only their own repository's work. */
  ghost predicate QueuesOwn(s: State) {
    forall r <- s.queues :: s.queues[r] != [] && forall i :: 0 <= i < |s.queues[r]| ==> s.queues[r][i].repository == r
  }

  /** Every identity is in one place: once in one queue, or active. */
  ghost predicate OnePlace(s: State) {
    && (forall r <- s.queues :: DistinctIds(s.queues[r]) && Ids(s.queues[r]) !! s.active.Keys)
    && (forall r, q :: r in s.queues && q in s.queues && r != q ==> Ids(s.queues[r]) !! Ids(s.queues[q]))
    && (forall id <- s.active :: s.active[id].id == id)
  }

  ghost predicate Inv(limits: Limits, s: State) {
    RotationExact(s) && QueuesOwn(s) && OnePlace(s) && WithinLimits(limits, s.active)
  }

  lemma RotateFacts(rotation: seq<nat>, r: nat)
    requires rotation != [] && rotation[0] == r && Distinct(rotation)
    ensures Distinct(rotation[1..]) && Distinct(rotation[1..] + [r])
    ensures forall q :: q in rotation[1..] <==> q in rotation && q != r
    ensures forall q :: q in rotation[1..] + [r] <==> q in rotation
  {
    var rest := rotation[1..];
    assert rotation == [r] + rest;
    assert forall i :: 0 <= i < |rest| ==> rest[i] == rotation[i + 1];
  }

  lemma AppendFacts(rotation: seq<nat>, r: nat)
    requires Distinct(rotation) && r !in rotation
    ensures Distinct(rotation + [r])
    ensures forall q :: q in rotation + [r] <==> q in rotation || q == r
  {
  }

  lemma RotationKept(limits: Limits, s: State, e: Event)
    requires RotationExact(s) && Legal(limits, s, e)
    ensures RotationExact(Step(limits, s, e))
  {
    hide Eligible, Queued, Distinct;
    if e.Examine? {
      RotateFacts(s.rotation, e.repository);
    } else if e.Submit? && e.work.repository !in s.rotation {
      AppendFacts(s.rotation, e.work.repository);
    }
  }

  lemma QueuesKept(limits: Limits, s: State, e: Event)
    requires QueuesOwn(s) && Legal(limits, s, e)
    ensures QueuesOwn(Step(limits, s, e))
  {
    hide Eligible, Queued;
  }

  lemma IdsOfRest(queue: seq<Work>)
    requires queue != [] && DistinctIds(queue)
    ensures DistinctIds(queue[1..]) && queue[0].id in Ids(queue)
    ensures Ids(queue[1..]) <= Ids(queue) && queue[0].id !in Ids(queue[1..])
  {
    var rest := queue[1..];
    assert forall i :: 0 <= i < |rest| ==> rest[i] == queue[i + 1];
  }

  lemma IdsOfLonger(queue: seq<Work>, w: Work)
    ensures Ids(queue + [w]) == Ids(queue) + {w.id}
    ensures DistinctIds(queue) && w.id !in Ids(queue) ==> DistinctIds(queue + [w])
  {
    var longer := queue + [w];
    assert forall i :: 0 <= i < |queue| ==> longer[i] == queue[i];
    assert longer[|queue|] == w;
  }

  lemma NotQueued(s: State, id: string)
    requires !Queued(s, id)
    ensures forall r <- s.queues :: id !in Ids(s.queues[r])
  {
  }

  lemma OnePlaceAfterSubmit(limits: Limits, s: State, w: Work)
    requires OnePlace(s) && Legal(limits, s, Submit(w))
    ensures OnePlace(Step(limits, s, Submit(w)))
  {
    hide Eligible, Queued, Ids, DistinctIds;
    NotQueued(s, w.id);
    IdsOfLonger(QueueOf(s, w.repository), w);
    EmptyQueue();
  }

  lemma OnePlaceAfterDispatch(limits: Limits, s: State, r: nat)
    requires OnePlace(s) && Legal(limits, s, Examine(r))
    ensures OnePlace(Dispatch(s, r))
  {
    hide Eligible, Queued, Ids, DistinctIds, Rotate;
    var queue := QueueOf(s, r);
    var next := Dispatch(s, r);
    IdsOfRest(queue);
    assert forall x <- next.queues :: x in s.queues && Ids(next.queues[x]) <= Ids(s.queues[x]);
    assert forall x <- next.queues :: x != r ==> next.queues[x] == s.queues[x];
    assert r in next.queues ==> next.queues[r] == queue[1..];
    assert next.active.Keys == s.active.Keys + {queue[0].id};
  }

  lemma OnePlaceKept(limits: Limits, s: State, e: Event)
    requires OnePlace(s) && Legal(limits, s, e)
    ensures OnePlace(Step(limits, s, e))
  {
    hide Eligible, Queued, Ids, DistinctIds, Dispatch;
    match e {
      case Submit(w) => OnePlaceAfterSubmit(limits, s, w);
      case Examine(r) =>
        if Dispatches(limits, s, e) {
          OnePlaceAfterDispatch(limits, s, r);
        }
      case Finish(id) =>
    }
  }

  lemma EmptyQueue()
    ensures DistinctIds([]) && Ids([]) == {}
  {
  }

  lemma {:induction false} SubsetSize(a: set<string>, b: set<string>)
    requires a <= b
    ensures |a| <= |b|
  {
    if a != {} {
      var x :| x in a;
      SubsetSize(a - {x}, b - {x});
    }
  }

  lemma LimitsAfterFinish(limits: Limits, active: map<string, Work>, id: string)
    requires WithinLimits(limits, active)
    ensures WithinLimits(limits, active - {id})
  {
    var fewer := active - {id};
    SubsetSize(fewer.Keys, active.Keys);
    forall r ensures |OfRepository(fewer, r)| <= limits.repository {
      SubsetSize(OfRepository(fewer, r), OfRepository(active, r));
    }
    SubsetSize(OfModel(fewer), OfModel(active));
    forall p | p in limits.providers ensures |OfProvider(fewer, p)| <= limits.providers[p] {
      SubsetSize(OfProvider(fewer, p), OfProvider(active, p));
    }
  }

  lemma OneMore(smaller: set<string>, larger: set<string>, id: string)
    requires larger <= smaller + {id}
    ensures |larger| <= |smaller| + 1
  {
    SubsetSize(larger, smaller + {id});
  }

  lemma RepositoryLimitAfterDispatch(limits: Limits, active: map<string, Work>, w: Work, r: nat)
    requires WithinLimits(limits, active) && Eligible(limits, active, w) && w.id !in active
    ensures |OfRepository(active[w.id := w], r)| <= limits.repository
  {
    var more := OfRepository(active[w.id := w], r);
    if r == w.repository {
      OneMore(OfRepository(active, r), more, w.id);
    } else {
      SubsetSize(more, OfRepository(active, r));
    }
  }

  lemma ModelLimitAfterDispatch(limits: Limits, active: map<string, Work>, w: Work)
    requires WithinLimits(limits, active) && Eligible(limits, active, w) && w.id !in active
    ensures |OfModel(active[w.id := w])| <= limits.model
  {
    var more := OfModel(active[w.id := w]);
    if w.kind.Model? {
      OneMore(OfModel(active), more, w.id);
    } else {
      SubsetSize(more, OfModel(active));
    }
  }

  lemma ProviderLimitAfterDispatch(limits: Limits, active: map<string, Work>, w: Work, p: string)
    requires WithinLimits(limits, active) && Eligible(limits, active, w) && w.id !in active
    requires p in limits.providers
    ensures |OfProvider(active[w.id := w], p)| <= limits.providers[p]
  {
    var more := OfProvider(active[w.id := w], p);
    if w.kind.Model? && w.provider == p {
      OneMore(OfProvider(active, p), more, w.id);
    } else {
      SubsetSize(more, OfProvider(active, p));
    }
  }

  lemma LimitsAfterDispatch(limits: Limits, active: map<string, Work>, w: Work)
    requires WithinLimits(limits, active) && Eligible(limits, active, w) && w.id !in active
    ensures WithinLimits(limits, active[w.id := w])
  {
    hide OfRepository, OfModel, OfProvider;
    var more := active[w.id := w];
    assert more.Keys == active.Keys + {w.id};
    forall r ensures |OfRepository(more, r)| <= limits.repository {
      RepositoryLimitAfterDispatch(limits, active, w, r);
    }
    ModelLimitAfterDispatch(limits, active, w);
    forall p | p in limits.providers ensures |OfProvider(more, p)| <= limits.providers[p] {
      ProviderLimitAfterDispatch(limits, active, w, p);
    }
  }

  lemma LimitsKept(limits: Limits, s: State, e: Event)
    requires OnePlace(s) && WithinLimits(limits, s.active) && Legal(limits, s, e)
    ensures WithinLimits(limits, Step(limits, s, e).active)
  {
    hide WithinLimits, Eligible, Queued;
    match e {
      case Submit(w) =>
      case Examine(r) =>
        if Dispatches(limits, s, e) {
          var w := QueueOf(s, r)[0];
          assert w.id in Ids(s.queues[r]);
          LimitsAfterDispatch(limits, s.active, w);
        }
      case Finish(id) => LimitsAfterFinish(limits, s.active, id);
    }
  }

  lemma InvKept(limits: Limits, s: State, e: Event)
    requires Inv(limits, s) && Legal(limits, s, e)
    ensures Inv(limits, Step(limits, s, e))
  {
    hide RotationExact, QueuesOwn, OnePlace, WithinLimits, Legal, Step;
    RotationKept(limits, s, e);
    QueuesKept(limits, s, e);
    OnePlaceKept(limits, s, e);
    LimitsKept(limits, s, e);
  }

  lemma InvInitially(limits: Limits)
    ensures Inv(limits, INITIAL)
  {
    assert OfModel(map[]) == {} && forall r :: OfRepository(map[], r) == {};
    assert forall p :: OfProvider(map[], p) == {};
  }

  /** In every state of every run the limits hold, the rotation is duplicate-free
      and lists exactly the repositories with queued work, and every identity is
      in one place. */
  lemma {:induction false} InvAlways(limits: Limits, log: seq<Event>, n: nat)
    requires LegalLog(limits, log) && n <= |log|
    ensures Inv(limits, After(limits, log, n))
  {
    hide Inv, Legal, Step;
    if n == 0 {
      InvInitially(limits);
    } else {
      InvAlways(limits, log, n - 1);
      StepAfter(limits, log, n - 1);
      InvKept(limits, After(limits, log, n - 1), log[n - 1]);
    }
  }

  // ---- Round-robin fairness ----

  /** One repository waits ahead of another. */
  predicate Ahead(rotation: seq<nat>, r: nat, q: nat) {
    exists i, j :: 0 <= i < j < |rotation| && rotation[i] == r && rotation[j] == q
  }

  lemma AheadAfterRotate(rotation: seq<nat>, r: nat)
    requires Distinct(rotation) && rotation != [] && r in rotation[1..]
    ensures Ahead(rotation[1..] + [rotation[0]], r, rotation[0])
  {
    var i :| 0 <= i < |rotation| - 1 && rotation[1..][i] == r;
    var turned := rotation[1..] + [rotation[0]];
    assert turned[i] == r && turned[|rotation| - 1] == rotation[0];
  }

  lemma AheadAfterPop(rotation: seq<nat>, r: nat, q: nat)
    requires rotation != [] && Ahead(rotation, r, q) && rotation[0] != r
    ensures Ahead(rotation[1..], r, q)
    ensures forall x :: Ahead(rotation[1..] + [x], r, q)
  {
    var i, j :| 0 <= i < j < |rotation| && rotation[i] == r && rotation[j] == q;
    assert rotation[1..][i - 1] == r && rotation[1..][j - 1] == q;
    forall x ensures Ahead(rotation[1..] + [x], r, q) {
      assert (rotation[1..] + [x])[i - 1] == r && (rotation[1..] + [x])[j - 1] == q;
    }
  }

  lemma AheadAfterAppend(rotation: seq<nat>, r: nat, q: nat, x: nat)
    requires Ahead(rotation, r, q)
    ensures Ahead(rotation + [x], r, q)
  {
    var i, j :| 0 <= i < j < |rotation| && rotation[i] == r && rotation[j] == q;
    assert (rotation + [x])[i] == r && (rotation + [x])[j] == q;
  }

  lemma AheadOfNew(rotation: seq<nat>, r: nat, x: nat)
    requires r in rotation
    ensures Ahead(rotation + [x], r, x)
  {
    var i :| 0 <= i < |rotation| && rotation[i] == r;
    assert (rotation + [x])[i] == r && (rotation + [x])[|rotation|] == x;
  }

  /** What every event but its own examination keeps: `r` waits ahead of `q`. */
  ghost predicate WaitsAhead(s: State, r: nat, q: nat) {
    r in s.rotation && (q in s.rotation ==> Ahead(s.rotation, r, q))
  }

  lemma WaitsAheadKept(limits: Limits, s: State, e: Event, r: nat, q: nat)
    requires RotationExact(s) && Legal(limits, s, e) && r != q
    requires WaitsAhead(s, r, q) && e != Examine(r)
    requires r in Step(limits, s, e).queues
    ensures WaitsAhead(Step(limits, s, e), r, q)
  {
    hide Eligible, Queued, Ahead, Distinct;
    RotationKept(limits, s, e);
    if e.Submit? && e.work.repository !in s.rotation {
      if q == e.work.repository {
        AheadOfNew(s.rotation, r, q);
      } else if q in s.rotation {
        AheadAfterAppend(s.rotation, r, q, e.work.repository);
      }
    } else if e.Examine? {
      var x := e.repository;
      RotateFacts(s.rotation, x);
      if x == q {
        AheadAfterRotate(s.rotation, r);
      } else if q in s.rotation {
        AheadAfterPop(s.rotation, r, q);
      }
    }
  }

  lemma WaitsAheadBegins(limits: Limits, s: State, r: nat, q: nat)
    requires RotationExact(s) && Legal(limits, s, Examine(q)) && r != q
    requires r in Step(limits, s, Examine(q)).queues
    ensures WaitsAhead(Step(limits, s, Examine(q)), r, q)
  {
    hide Eligible, Queued, Ahead, Distinct;
    RotationKept(limits, s, Examine(q));
    RotateFacts(s.rotation, q);
    AheadAfterRotate(s.rotation, r);
  }

  /** The repository is looked at, and if its head is eligible then, its head
      is what becomes active. */
  predicate Served(limits: Limits, log: seq<Event>, k: nat, r: nat)
    requires k < |log|
  {
    var s := After(limits, log, k);
    && log[k] == Examine(r) && QueueOf(s, r) != []
    && var head := QueueOf(s, r)[0];
      (Eligible(limits, s.active, head) ==> After(limits, log, k + 1).active == s.active[head.id := head])
  }

  lemma ExaminedIsServed(limits: Limits, log: seq<Event>, k: nat, r: nat)
    requires LegalLog(limits, log) && k < |log| && log[k] == Examine(r)
    ensures Served(limits, log, k, r)
  {
    hide Eligible, Legal, After, LegalLog, Dispatch;
    StepAfter(limits, log, k);
    var s := After(limits, log, k);
    LegalExamine(limits, s, r);
    if Eligible(limits, s.active, QueueOf(s, r)[0]) {
      DispatchActivates(s, r);
    }
  }

  lemma LegalExamine(limits: Limits, s: State, r: nat)
    requires Legal(limits, s, Examine(r))
    ensures QueueOf(s, r) != []
  {
  }

  lemma DispatchActivates(s: State, r: nat)
    requires QueueOf(s, r) != []
    ensures Dispatch(s, r).active == s.active[QueueOf(s, r)[0].id := QueueOf(s, r)[0]]
  {
  }

  /** Between two looks at one repository, so between two dispatches from it,
      every other repository whose work was queued throughout is looked at and
      dispatched from if its head is eligible at that look. */
  lemma RoundRobin(limits: Limits, log: seq<Event>, i: nat, j: nat, q: nat, r: nat)
    requires LegalLog(limits, log) && i < j < |log| && q != r
    requires log[i] == Examine(q) && log[j] == Examine(q)
    requires forall n :: i < n <= j ==> r in After(limits, log, n).queues
    ensures exists k :: i < k < j && Served(limits, log, k, r)
  {
    hide Legal, Step, After, WaitsAhead, RotationExact, Served;
    if k :| i < k < j && log[k] == Examine(r) {
      ExaminedIsServed(limits, log, k, r);
    } else {
      StillAhead(limits, log, i, j, q, r);
      StepAfter(limits, log, j);
      NotExamined(limits, After(limits, log, j), r, q);
    }
  }

  lemma FrontIsBehindNone(rotation: seq<nat>, r: nat)
    requires Distinct(rotation) && rotation != []
    ensures !Ahead(rotation, r, rotation[0])
  {
  }

  lemma NotExamined(limits: Limits, s: State, r: nat, q: nat)
    requires RotationExact(s) && WaitsAhead(s, r, q)
    ensures !Legal(limits, s, Examine(q))
  {
    hide Distinct, Ahead;
    if s.rotation != [] {
      FrontIsBehindNone(s.rotation, r);
    }
  }

  lemma {:induction false} StillAhead(limits: Limits, log: seq<Event>, i: nat, n: nat, q: nat, r: nat)
    requires LegalLog(limits, log) && i < n <= |log| && q != r && log[i] == Examine(q)
    requires forall m :: i < m <= n ==> r in After(limits, log, m).queues
    requires forall k :: i < k < n ==> log[k] != Examine(r)
    ensures WaitsAhead(After(limits, log, n), r, q) && RotationExact(After(limits, log, n))
  {
    hide Legal, Step, After, WaitsAhead, RotationExact, QueuesOwn, OnePlace, WithinLimits;
    InvAlways(limits, log, n);
    InvAlways(limits, log, n - 1);
    StepAfter(limits, log, n - 1);
    var before := After(limits, log, n - 1);
    if n == i + 1 {
      WaitsAheadBegins(limits, before, r, q);
    } else {
      StillAhead(limits, log, i, n - 1, q, r);
      WaitsAheadKept(limits, before, log[n - 1], r, q);
    }
  }

  // ---- First in, first out ----

  function SubmittedBy(e: Event, r: nat): seq<Work> {
    if e.Submit? && e.work.repository == r then [e.work] else []
  }

  function DispatchedBy(limits: Limits, s: State, e: Event, r: nat): seq<Work> {
    if e == Examine(r) && Dispatches(limits, s, e) then [QueueOf(s, r)[0]] else []
  }

  function Submitted(log: seq<Event>, n: nat, r: nat): seq<Work>
    requires n <= |log|
  {
    if n == 0 then [] else Submitted(log, n - 1, r) + SubmittedBy(log[n - 1], r)
  }

  /** The works that became active, in order. */
  function Dispatched(limits: Limits, log: seq<Event>, n: nat, r: nat): seq<Work>
    requires n <= |log|
  {
    if n == 0 then [] else
    Dispatched(limits, log, n - 1, r) + DispatchedBy(limits, After(limits, log, n - 1), log[n - 1], r)
  }

  lemma QueueStep(limits: Limits, s: State, e: Event, r: nat)
    requires Legal(limits, s, e)
    ensures QueueOf(s, r) + SubmittedBy(e, r) == DispatchedBy(limits, s, e, r) + QueueOf(Step(limits, s, e), r)
  {
    hide Eligible, Queued;
    var queue := QueueOf(s, r);
    if queue != [] {
      assert queue == [queue[0]] + queue[1..];
    }
  }

  /** Per repository, work is dispatched in the order it was submitted, and what
      is not dispatched yet is what the queue holds. */
  lemma {:induction false} SubmissionOrder(limits: Limits, log: seq<Event>, n: nat, r: nat)
    requires LegalLog(limits, log) && n <= |log|
    ensures Submitted(log, n, r) == Dispatched(limits, log, n, r) + QueueOf(After(limits, log, n), r)
  {
    hide Legal, Step, QueueOf, SubmittedBy, DispatchedBy;
    if n > 0 {
      SubmissionOrder(limits, log, n - 1, r);
      StepAfter(limits, log, n - 1);
      QueueStep(limits, After(limits, log, n - 1), log[n - 1], r);
      assert Submitted(log, n, r)
          == Dispatched(limits, log, n - 1, r)
             + (QueueOf(After(limits, log, n - 1), r) + SubmittedBy(log[n - 1], r));
    } else {
      InitiallyEmpty(limits, r);
    }
  }

  lemma InitiallyEmpty(limits: Limits, r: nat)
    ensures QueueOf(After(limits, [], 0), r) == []
  {
  }
}
