/** The in-process scheduler: mutable queues, a rotation and concurrency limits,
    following the state machine of `Scheduling` event by event. */
module Scheduler {
  import opened Results
  import opened Scheduling

  /** How a handler ended. */
  datatype End = Returned | Raised

  /** What one pass over the active works sees of one of them: whether its
      deadline had passed while it was still running, and whether it has ended. */
  datatype Sight = Sight(late: bool, end: Option<End>)

  datatype Active = Active(work: Work, timedOut: bool, cancelRequested: bool)

  datatype Finished = Completed | TimedOut | Failed

  datatype Reason = GlobalLimit | RepositoryLimit | ProviderLimit | ModelLimit

  function Works(active: map<string, Active>): map<string, Work> {
    map id | id in active :: active[id].work
  }

  function Seen(a: Active, sight: Sight): Active {
    if sight.late && a.work.timeout.Some?
    then a.(timedOut := true, cancelRequested := true) else a
  }

  function FinishedAs(a: Active, end: End): Finished {
    match end
    case Raised => Failed
    case Returned => if a.timedOut then TimedOut else Completed
  }

  function QueuedIds(queues: map<nat, seq<Work>>): set<string> {
    set r, i | r in queues && 0 <= i < |queues[r]| :: queues[r][i].id
  }

  function FailedIds(results: map<string, Finished>): set<string> {
    set id | id in results && results[id].Failed?
  }

  function RemoveFirst(s: seq<nat>, x: nat): seq<nat> {
    if s == [] then [] else if s[0] == x then s[1..] else [s[0]] + RemoveFirst(s[1..], x)
  }

  lemma {:induction false} RemoveLast(s: seq<nat>, x: nat)
    requires x !in s
    ensures RemoveFirst(s + [x], x) == s
  {
    if s != [] {
      assert (s + [x])[1..] == s[1..] + [x];
      RemoveLast(s[1..], x);
    } else {
      assert [x][1..] == [];
    }
  }

  // ---- Logs ----

  lemma {:induction false} AfterPrefix(limits: Limits, log: seq<Event>, e: Event, n: nat)
    requires n <= |log|
    ensures After(limits, log + [e], n) == After(limits, log, n)
  {
    hide Step;
    if n > 0 {
      AfterPrefix(limits, log, e, n - 1);
    }
  }

  lemma LogOneMore(limits: Limits, log: seq<Event>, e: Event)
    requires LegalLog(limits, log) && Legal(limits, After(limits, log, |log|), e)
    ensures LegalLog(limits, log + [e])
    ensures After(limits, log + [e], |log| + 1) == Step(limits, After(limits, log, |log|), e)
  {
    hide Step, Legal, After;
    var longer := log + [e];
    forall n | 0 <= n < |longer|
      ensures LegalAt(limits, longer, n)
    {
      AfterPrefix(limits, log, e, n);
      assert n < |log| ==> LegalAt(limits, log, n);
    }
    AfterPrefix(limits, log, e, |log|);
    AfterStep(limits, longer, |log|);
  }

  lemma AfterStep(limits: Limits, log: seq<Event>, n: nat)
    requires n < |log|
    ensures After(limits, log, n + 1) == Step(limits, After(limits, log, n), log[n])
  {
    hide Step;
  }

  // ---- Counting ----

  function Count<T>(counts: map<T, nat>, key: T): nat {
    if key in counts then counts[key] else 0
  }

  /** The tables hold, for every repository and provider, the number of active works. */
  ghost predicate Tallies(repositories: map<nat, nat>, providers: map<string, nat>, models: nat, active: map<string, Work>) {
    && (forall r :: Count(repositories, r) == |OfRepository(active, r)|)
    && (forall p :: Count(providers, p) == |OfProvider(active, p)|)
    && models == |OfModel(active)|
  }

  lemma RepositoryTally(active: map<string, Work>, id: string, w: Work, r: nat)
    requires id !in active
    ensures |OfRepository(active[id := w], r)| == |OfRepository(active, r)| + if w.repository == r then 1 else 0
  {
    assert OfRepository(active[id := w], r) == OfRepository(active, r) + if w.repository == r then {id} else {};
  }

  lemma ModelTally(active: map<string, Work>, id: string, w: Work)
    requires id !in active
    ensures |OfModel(active[id := w])| == |OfModel(active)| + if w.kind.Model? then 1 else 0
  {
    assert OfModel(active[id := w]) == OfModel(active) + if w.kind.Model? then {id} else {};
  }

  lemma ProviderTally(active: map<string, Work>, id: string, w: Work, p: string)
    requires id !in active
    ensures |OfProvider(active[id := w], p)|
         == |OfProvider(active, p)| + if w.kind.Model? && w.provider == p then 1 else 0
  {
    assert OfProvider(active[id := w], p)
        == OfProvider(active, p) + if w.kind.Model? && w.provider == p then {id} else {};
  }

  lemma TallyOneMore(repositories: map<nat, nat>, providers: map<string, nat>, models: nat,
                     active: map<string, Work>, id: string, w: Work)
    requires Tallies(repositories, providers, models, active) && id !in active
    ensures Tallies(repositories[w.repository := Count(repositories, w.repository) + 1],
                    if w.kind.Model? then providers[w.provider := Count(providers, w.provider) + 1] else providers,
                    if w.kind.Model? then models + 1 else models, active[id := w])
  {
    hide OfRepository, OfProvider, OfModel;
    var more := active[id := w];
    forall r
      ensures Count(repositories[w.repository := Count(repositories, w.repository) + 1], r) == |OfRepository(more, r)|
    {
      RepositoryTally(active, id, w, r);
    }
    var counted := if w.kind.Model? then providers[w.provider := Count(providers, w.provider) + 1] else providers;
    forall p
      ensures Count(counted, p) == |OfProvider(more, p)|
    {
      ProviderTally(active, id, w, p);
    }
    ModelTally(active, id, w);
  }

  /** The per-work counting pass. */
  method Counts(active: map<string, Work>)
    returns (repositories: map<nat, nat>, providers: map<string, nat>, models: nat)
    ensures Tallies(repositories, providers, models, active)
  {
    hide OfRepository, OfProvider, OfModel, Tallies;
    repositories, providers, models := map[], map[], 0;
    var counted: map<string, Work> := map[];
    NothingTallied();
    var todo := active.Keys;
    while todo != {}
      invariant todo <= active.Keys && counted.Keys == active.Keys - todo
      invariant forall id <- counted :: counted[id] == active[id]
      invariant Tallies(repositories, providers, models, counted)
      decreases |todo|
    {
      var id :| id in todo;
      todo := todo - {id};
      var w := active[id];
      TallyOneMore(repositories, providers, models, counted, id, w);
      repositories := repositories[w.repository := Count(repositories, w.repository) + 1];
      if w.kind.Model? {
        models := models + 1;
        providers := providers[w.provider := Count(providers, w.provider) + 1];
      }
      counted := counted[id := w];
    }
    assert counted == active;
  }

  lemma NothingTallied()
    ensures Tallies(map[], map[], 0, map[])
  {
    assert OfModel(map[]) == {} && forall r :: OfRepository(map[], r) == {};
    assert forall p :: OfProvider(map[], p) == {};
  }

  /** Why a work has to wait, from the tables. */
  function Waiting(limits: Limits, size: nat, w: Work, repositories: map<nat, nat>, providers: map<string, nat>,
                   models: nat): Option<Reason>
  {
    if size >= limits.total then Some(GlobalLimit)
    else if Count(repositories, w.repository) >= limits.repository then Some(RepositoryLimit)
    else if w.kind.Model? && w.provider in limits.providers
            && Count(providers, w.provider) >= limits.providers[w.provider] then Some(ProviderLimit)
    else if w.kind.Model? && models >= limits.model then Some(ModelLimit)
    else None
  }

  lemma WaitingExact(limits: Limits, active: map<string, Work>, w: Work,
                     repositories: map<nat, nat>, providers: map<string, nat>, models: nat)
    requires Tallies(repositories, providers, models, active)
    ensures Waiting(limits, |active|, w, repositories, providers, models).None? <==> Eligible(limits, active, w)
  {
    hide OfRepository, OfProvider, OfModel, Count;
    assert Count(repositories, w.repository) == |OfRepository(active, w.repository)|;
    assert Count(providers, w.provider) == |OfProvider(active, w.provider)|;
  }

  /** A work is eligible exactly if the limits still hold with it among the active
      ones; nothing else keeps it from starting. */
  lemma EligibleExactly(limits: Limits, active: map<string, Work>, w: Work)
    requires WithinLimits(limits, active) && w.id !in active
    ensures Eligible(limits, active, w) <==> WithinLimits(limits, active[w.id := w])
  {
    hide OfRepository, OfProvider, OfModel;
    var more := active[w.id := w];
    assert more.Keys == active.Keys + {w.id};
    RepositoryTally(active, w.id, w, w.repository);
    ModelTally(active, w.id, w);
    ProviderTally(active, w.id, w, w.provider);
    if Eligible(limits, active, w) {
      forall r
        ensures |OfRepository(more, r)| <= limits.repository
      {
        RepositoryTally(active, w.id, w, r);
      }
      forall p | p in limits.providers
        ensures |OfProvider(more, p)| <= limits.providers[p]
      {
        ProviderTally(active, w.id, w, p);
      }
    } else {
      assert WithinLimits(limits, more) ==> |OfRepository(more, w.repository)| <= limits.repository;
    }
  }

  // ---- Facts about one step, on values ----

  lemma QueuedIdsSplit(queues: map<nat, seq<Work>>, r: nat)
    requires r in queues
    ensures QueuedIds(queues) == QueuedIds(queues - {r}) + Ids(queues[r])
  {
    var others := queues - {r};
    assert forall q <- others :: q in queues && others[q] == queues[q];
    forall id <- QueuedIds(queues)
      ensures id in QueuedIds(others) + Ids(queues[r])
    {
      var q, i :| q in queues && 0 <= i < |queues[q]| && queues[q][i].id == id;
      if q != r {
        assert q in others && others[q][i].id == id;
      }
    }
  }

  lemma QueuedIdsPut(queues: map<nat, seq<Work>>, r: nat, queue: seq<Work>)
    ensures QueuedIds(queues[r := queue]) == QueuedIds(queues - {r}) + Ids(queue)
  {
    var next := queues[r := queue];
    assert next - {r} == queues - {r};
    QueuedIdsSplit(next, r);
  }

  lemma QueuedMeans(s: State, id: string)
    ensures Queued(s, id) <==> id in QueuedIds(s.queues)
  {
  }

  lemma IdsOfHead(queue: seq<Work>)
    requires queue != [] && DistinctIds(queue)
    ensures Ids(queue) == {queue[0].id} + Ids(queue[1..]) && queue[0].id !in Ids(queue[1..])
  {
    var rest := queue[1..];
    assert forall i :: 0 <= i < |rest| ==> rest[i] == queue[i + 1];
    forall id <- Ids(queue)
      ensures id in {queue[0].id} + Ids(rest)
    {
      var i :| 0 <= i < |queue| && queue[i].id == id;
      if i > 0 {
        assert rest[i - 1].id == id;
      }
    }
  }

  lemma QueuedAfterSubmit(limits: Limits, s: State, w: Work)
    ensures QueuedIds(Step(limits, s, Submit(w)).queues) == QueuedIds(s.queues) + {w.id}
  {
    hide QueuedIds, Ids;
    var r := w.repository;
    var queue := QueueOf(s, r);
    QueuedIdsPut(s.queues, r, queue + [w]);
    IdsOfLonger(queue, w);
    if r in s.queues {
      QueuedIdsSplit(s.queues, r);
    } else {
      assert s.queues - {r} == s.queues;
      EmptyQueue();
    }
  }

  lemma QueuedAfterDispatch(s: State, r: nat)
    requires QueueOf(s, r) != [] && OnePlace(s)
    ensures var id := QueueOf(s, r)[0].id;
            id in QueuedIds(s.queues) && QueuedIds(Dispatch(s, r).queues) == QueuedIds(s.queues) - {id}
  {
    hide QueuedIds, Ids, DistinctIds;
    var queue := QueueOf(s, r);
    QueuedIdsSplit(s.queues, r);
    IdsOfHead(queue);
    QueuedElsewhere(s, r);
    if |queue| > 1 {
      QueuedIdsPut(s.queues, r, queue[1..]);
    } else {
      assert queue[1..] == [];
      EmptyQueue();
    }
  }

  lemma QueuedElsewhere(s: State, r: nat)
    requires r in s.queues && OnePlace(s)
    ensures QueuedIds(s.queues - {r}) !! Ids(s.queues[r])
  {
    hide DistinctIds, Ids;
    forall id <- QueuedIds(s.queues - {r})
      ensures id !in Ids(s.queues[r])
    {
      var q, i :| q in s.queues - {r} && 0 <= i < |s.queues[q]| && s.queues[q][i].id == id;
      InIds(s.queues[q], i);
    }
  }

  lemma InIds(queue: seq<Work>, i: nat)
    requires i < |queue|
    ensures queue[i].id in Ids(queue)
  {
  }

  lemma WorksKeys(active: map<string, Active>)
    ensures Works(active).Keys == active.Keys
  {
  }

  lemma WorksWithout(active: map<string, Active>, id: string)
    ensures Works(active - {id}) == Works(active) - {id}
  {
  }

  lemma WorksWith(active: map<string, Active>, id: string, a: Active)
    ensures Works(active[id := a]) == Works(active)[id := a.work]
  {
  }

  lemma FinishKeeps(limits: Limits, s: State, id: string)
    requires Inv(limits, s) && id in s.active
    ensures Inv(limits, s.(active := s.active - {id}))
    ensures Legal(limits, s, Finish(id)) && Step(limits, s, Finish(id)) == s.(active := s.active - {id})
  {
    hide Inv;
    InvKept(limits, s, Finish(id));
  }

  lemma SubmitKeeps(limits: Limits, s: State, w: Work)
    requires Inv(limits, s) && w.id !in QueuedIds(s.queues) && w.id !in s.active
    ensures Inv(limits, Step(limits, s, Submit(w))) && Legal(limits, s, Submit(w))
  {
    hide Inv, QueuedIds, Queued, Step;
    QueuedMeans(s, w.id);
    InvKept(limits, s, Submit(w));
  }

  /** Identities with a result are forgotten unless they are active again. */
  method Release(known: set<string>, completed: set<string>, active: set<string>) returns (retained: set<string>)
    ensures retained == known - (completed - active)
  {
    var released := completed;
    retained := known;
    while released != {}
      invariant released <= completed && retained == known - ((completed - released) - active)
      decreases |released|
    {
      var id :| id in released;
      released := released - {id};
      if id !in active {
        retained := retained - {id};
      }
    }
  }

  lemma LegalTurn(limits: Limits, s: State)
    requires Inv(limits, s) && s.rotation != [] && |s.active| < limits.total
    ensures Legal(limits, s, Examine(s.rotation[0]))
    ensures s.rotation[0] in s.queues && QueueOf(s, s.rotation[0]) == s.queues[s.rotation[0]] != []
    ensures s.rotation[0] !in s.rotation[1..]
  {
    hide WithinLimits, OnePlace;
    RotateFacts(s.rotation, s.rotation[0]);
  }

  /** What a turn does, spelled out. */
  lemma StepOfTurn(limits: Limits, s: State)
    requires Inv(limits, s) && s.rotation != [] && |s.active| < limits.total
    ensures var r := s.rotation[0];
            var queue := QueueOf(s, r);
            && queue != []
            && (Dispatches(limits, s, Examine(r)) <==> Eligible(limits, s.active, queue[0]))
            && Step(limits, s, Examine(r)) ==
               if !Eligible(limits, s.active, queue[0]) then
                 s.(rotation := s.rotation[1..] + [r])
               else if |queue| == 1 then
                 State(s.queues - {r}, s.rotation[1..], s.active[queue[0].id := queue[0]])
               else
                 State(s.queues[r := queue[1..]], s.rotation[1..] + [r], s.active[queue[0].id := queue[0]])
  {
    hide Inv, Eligible;
    LegalTurn(limits, s);
  }

  lemma TurnKeepsInv(limits: Limits, s: State)
    requires Inv(limits, s) && s.rotation != [] && |s.active| < limits.total
    ensures Inv(limits, Step(limits, s, Examine(s.rotation[0])))
  {
    hide Inv, Step, Legal;
    LegalTurn(limits, s);
    InvKept(limits, s, Examine(s.rotation[0]));
  }

  /** A turn that starts a work moves its identity from the queues to the active works. */
  lemma TurnMoves(limits: Limits, s: State)
    requires Inv(limits, s) && s.rotation != [] && |s.active| < limits.total
    ensures var r := s.rotation[0];
            && QueueOf(s, r) != []
            && var next, id := Step(limits, s, Examine(r)), QueueOf(s, r)[0].id;
              if Dispatches(limits, s, Examine(r)) then
                && id in QueuedIds(s.queues)
                && QueuedIds(next.queues) == QueuedIds(s.queues) - {id}
                && next.active.Keys == s.active.Keys + {id}
              else
                next.queues == s.queues && next.active == s.active
  {
    hide Inv, QueuedIds, Eligible, Dispatch, QueueOf, Legal, OnePlace;
    var r := s.rotation[0];
    LegalTurn(limits, s);
    if Dispatches(limits, s, Examine(r)) {
      OnePlaceOf(limits, s);
      QueuedAfterDispatch(s, r);
      DispatchActivates(s, r);
    }
  }

  /** A turn keeps the accounts. */
  lemma TurnAccounts(limits: Limits, s: State, results: map<string, Finished>,
                     known: set<string>, pending: set<string>, dropped: set<string>)
    requires Inv(limits, s) && s.rotation != [] && |s.active| < limits.total
    requires Accounted(QueuedIds(s.queues), s.active.Keys, results, known, pending, dropped)
    ensures var next := Step(limits, s, Examine(s.rotation[0]));
            Accounted(QueuedIds(next.queues), next.active.Keys, results, known, pending, dropped)
    ensures Dispatches(limits, s, Examine(s.rotation[0])) ==>
              QueueOf(s, s.rotation[0]) != [] && QueueOf(s, s.rotation[0])[0].id !in s.active
  {
    hide Inv, QueuedIds, Eligible, Step, QueueOf, Accounted, Dispatches;
    var r := s.rotation[0];
    TurnMoves(limits, s);
    if Dispatches(limits, s, Examine(r)) {
      AccountDispatch(QueuedIds(s.queues), s.active.Keys, results, known, pending, dropped, QueueOf(s, r)[0].id);
    }
  }

  lemma OnePlaceOf(limits: Limits, s: State)
    requires Inv(limits, s)
    ensures OnePlace(s) && RotationExact(s) && |s.active| <= limits.total
  {
  }

  /** The repository has nothing queued, or its oldest work has to wait. */
  predicate Waits(limits: Limits, s: State, r: nat) {
    QueueOf(s, r) == [] || !Eligible(limits, s.active, QueueOf(s, r)[0])
  }

  lemma WaitsOf(limits: Limits, s: State)
    ensures s.rotation != [] && QueueOf(s, s.rotation[0]) != [] && !Dispatches(limits, s, Examine(s.rotation[0])) ==>
              Waits(limits, s, s.rotation[0])
    ensures s.rotation != [] && QueueOf(s, s.rotation[0]) == [] ==> Waits(limits, s, s.rotation[0])
  {
    hide Eligible;
  }

  ghost predicate AllWaiting(limits: Limits, s: State) {
    forall r <- s.queues :: Waits(limits, s, r)
  }

  predicate LastWaiting(limits: Limits, s: State, n: nat) {
    n <= |s.rotation| && forall i :: |s.rotation| - n <= i < |s.rotation| ==> Waits(limits, s, s.rotation[i])
  }

  lemma NoneLooked(limits: Limits, s: State)
    ensures LastWaiting(limits, s, 0)
  {
  }

  lemma OneMoreWaiting(limits: Limits, s: State, n: nat)
    requires s.rotation != [] && LastWaiting(limits, s, n) && n < |s.rotation| && Waits(limits, s, s.rotation[0])
    ensures LastWaiting(limits, s.(rotation := s.rotation[1..] + [s.rotation[0]]), n + 1)
  {
    hide Eligible;
    var turned := s.(rotation := s.rotation[1..] + [s.rotation[0]]);
    forall r ensures Waits(limits, turned, r) <==> Waits(limits, s, r) {
    }
    assert forall i :: 0 <= i < |s.rotation| - 1 ==> turned.rotation[i] == s.rotation[i + 1];
  }

  lemma EveryWaiting(limits: Limits, s: State)
    requires Inv(limits, s) && LastWaiting(limits, s, |s.rotation|)
    ensures AllWaiting(limits, s)
  {
    hide Waits, OnePlace, QueuesOwn, WithinLimits, Distinct;
  }

  lemma SameSize(active: map<string, Active>)
    ensures |active| == |Works(active)|
  {
    assert active.Keys == Works(active).Keys;
  }

  // ---- Accounting ----

  /** Every accepted, unacknowledged identity is in exactly one of the queues,
      the active works and the results, unless shutdown dropped it; and every
      one but the failed is refused a second time. */
  ghost predicate Accounted(queued: set<string>, active: set<string>, results: map<string, Finished>,
                            known: set<string>, pending: set<string>, dropped: set<string>)
  {
    && pending == queued + active + results.Keys + dropped
    && queued !! active !! results.Keys !! dropped
    && known == pending - FailedIds(results)
  }

  lemma AccountSubmit(queued: set<string>, active: set<string>, results: map<string, Finished>,
                      known: set<string>, pending: set<string>, id: string)
    requires Accounted(queued, active, results, known, pending, {}) && id !in known
    ensures id !in queued && id !in active
    ensures Accounted(queued + {id}, active, results - {id}, known + {id}, pending + {id}, {})
  {
  }

  lemma AccountDispatch(queued: set<string>, active: set<string>, results: map<string, Finished>,
                        known: set<string>, pending: set<string>, dropped: set<string>, id: string)
    requires Accounted(queued, active, results, known, pending, dropped) && id in queued
    ensures Accounted(queued - {id}, active + {id}, results, known, pending, dropped)
    ensures id !in active
  {
  }

  lemma AccountFinish(queued: set<string>, active: set<string>, results: map<string, Finished>,
                      known: set<string>, pending: set<string>, dropped: set<string>, id: string, f: Finished)
    requires Accounted(queued, active, results, known, pending, dropped) && id in active
    ensures Accounted(queued, active - {id}, results[id := f], if f.Failed? then known - {id} else known, pending, dropped)
  {
  }

  lemma AccountAcknowledge(queued: set<string>, active: set<string>, results: map<string, Finished>,
                           known: set<string>, pending: set<string>, dropped: set<string>)
    requires Accounted(queued, active, results, known, pending, dropped)
    ensures Accounted(queued, active, map[], known - results.Keys, pending - results.Keys, dropped)
    ensures results.Keys !! active
  {
  }

  lemma AccountDrop(queued: set<string>, active: set<string>, results: map<string, Finished>,
                    known: set<string>, pending: set<string>, dropped: set<string>)
    requires Accounted(queued, active, results, known, pending, dropped)
    ensures Accounted({}, active, results, known, pending, dropped + queued)
  {
  }

  /** The state is what the state machine reaches by the events so far. */
  ghost predicate Follows(limits: Limits, log: seq<Event>, now: State) {
    LegalLog(limits, log) && After(limits, log, |log|) == now
  }

  lemma FollowsNext(limits: Limits, log: seq<Event>, now: State, e: Event)
    requires Follows(limits, log, now) && Legal(limits, now, e)
    ensures Follows(limits, log + [e], Step(limits, now, e))
  {
    hide Legal, Step, After, LegalLog;
    LogOneMore(limits, log, e);
  }

  // ---- Facts about whole passes ----

  lemma Cleared(limits: Limits, s: State)
    requires Inv(limits, s)
    ensures Inv(limits, State(map[], [], s.active)) && QueuedIds(map[]) == {}
  {
    hide WithinLimits;
  }

  lemma KeptFewer(first: map<string, Active>, look: string -> Sight)
    ensures Kept(first, {}, look).Keys <= first.Keys
  {
    hide Seen;
  }

  ghost predicate NoSubmissions(before: seq<Event>, after: seq<Event>) {
    before <= after && forall n :: |before| <= n < |after| ==> !after[n].Submit?
  }

  lemma NoneSubmitted(before: seq<Event>, after: seq<Event>)
    requires OnlyFinishes(before, after)
    ensures NoSubmissions(before, after)
  {
  }

  lemma NoSubmissionsBetween(before: seq<Event>, between: seq<Event>, after: seq<Event>)
    requires NoSubmissions(before, between) && NoSubmissions(between, after)
    ensures NoSubmissions(before, after)
  {
  }

  lemma MoreEvents(before: seq<Event>, after: seq<Event>, e: Event)
    requires NoSubmissions(before, after) && !e.Submit?
    ensures NoSubmissions(before, after + [e])
  {
  }

  /** The active works after all but `todo` were looked at: whoever has not ended. */
  function Kept(first: map<string, Active>, todo: set<string>, look: string -> Sight): map<string, Active> {
    map id | id in first && (id in todo || look(id).end.None?) :: if id in todo then first[id] else Seen(first[id], look(id))
  }

  /** The results of those that had ended. */
  function Ended(first: map<string, Active>, todo: set<string>, look: string -> Sight): map<string, Finished> {
    map id | id in first && id !in todo && look(id).end.Some? :: FinishedAs(Seen(first[id], look(id)), look(id).end.value)
  }

  /** A work that was overdue while it still ran keeps its capacity and is asked to
      stop; whatever it returns later is a timeout and never a success, and a work that
      raised has failed. Works without a timeout are never overdue. */
  lemma PassMeans(first: map<string, Active>, look: string -> Sight, id: string)
    requires id in first
    ensures var overdue := look(id).late && first[id].work.timeout.Some?;
            && (id in Kept(first, {}, look) <==> look(id).end == None)
            && (id in Ended(first, {}, look) <==> look(id).end != None)
            && (look(id).end == None ==>
                  var a := Kept(first, {}, look)[id];
                  && a.work == first[id].work && (a.timedOut <==> first[id].timedOut || overdue)
                  && (a.cancelRequested <==> first[id].cancelRequested || overdue))
            && (look(id).end == Some(Raised) ==> Ended(first, {}, look)[id] == Failed)
            && (look(id).end == Some(Returned) ==>
                  Ended(first, {}, look)[id] == if first[id].timedOut || overdue then TimedOut else Completed)
  {
  }

  lemma NoneSeen(first: map<string, Active>, look: string -> Sight)
    ensures Kept(first, first.Keys, look) == first && Ended(first, first.Keys, look) == map[]
  {
  }

  lemma OneSeen(first: map<string, Active>, todo: set<string>, look: string -> Sight, id: string)
    requires id in todo && todo <= first.Keys
    ensures id in Kept(first, todo, look) && Kept(first, todo, look)[id] == first[id]
    ensures Kept(first, todo - {id}, look)
         == if look(id).end.None? then Kept(first, todo, look)[id := Seen(first[id], look(id))]
            else Kept(first, todo, look) - {id}
    ensures Ended(first, todo - {id}, look)
         == if look(id).end.None? then Ended(first, todo, look)
            else Ended(first, todo, look)[id := FinishedAs(Seen(first[id], look(id)), look(id).end.value)]
  {
    hide Seen, FinishedAs;
  }

  lemma EndedLater(already: map<string, Finished>, ended: map<string, Finished>, id: string, f: Finished)
    ensures (already + ended)[id := f] == already + ended[id := f]
  {
  }

  ghost predicate OnlyFinishes(before: seq<Event>, after: seq<Event>) {
    before <= after && forall n :: |before| <= n < |after| ==> after[n].Finish?
  }

  lemma NoEvents(log: seq<Event>)
    ensures OnlyFinishes(log, log)
  {
  }

  lemma MoreFinishes(before: seq<Event>, after: seq<Event>, id: string)
    requires OnlyFinishes(before, after)
    ensures OnlyFinishes(before, after + [Finish(id)])
  {
  }

  lemma SeenSameWork(active: map<string, Active>, id: string, sight: Sight)
    requires id in active
    ensures Works(active[id := Seen(active[id], sight)]) == Works(active)
    ensures id in Works(active) && Works(active)[id] == active[id].work
    ensures active == active[id := active[id]]
  {
  }

  // ---- The scheduler ----

  class FairScheduler {
    const limits: Limits
    var queues: map<nat, seq<Work>>
    var rotation: seq<nat>
    var active: map<string, Active>
    var known: set<string>
    var results: map<string, Finished>
    var accepting: bool
    /** Every event so far, until the queues are cleared at shutdown. */
    ghost var log: seq<Event>
    ghost var down: bool
    /** Accepted and not acknowledged. */
    ghost var pending: set<string>
    /** Still queued when the queues were cleared. */
    ghost var dropped: set<string>

    function Now(): State
      reads this
    {
      State(queues, rotation, Works(active))
    }

    ghost predicate Valid()
      reads this
    {
      && limits.Positive() && Inv(limits, Now())
      && Accounted(QueuedIds(queues), active.Keys, results, known, pending, dropped)
      && (if down then queues == map[] && rotation == [] && !accepting
          else dropped == {} && Follows(limits, log, Now()))
    }

    constructor (limits: Limits)
      requires limits.Positive()
      ensures Valid() && fresh(this) && this.limits == limits
      ensures Now() == INITIAL && accepting && results == map[] && log == [] && pending == {} && !down
    {
      this.limits := limits;
      queues, rotation, active, known, results, accepting := map[], [], map[], {}, map[], true;
      log, down, pending, dropped := [], false, {}, {};
      new;
      hide Inv;
      InvInitially(limits);
      assert Works(map[]) == map[];
    }

    /** Intake: an identity is queued once, at the end of its repository's queue. */
    method Submit(work: Work) returns (r: Result<bool>)
      requires Valid()
      modifies this
      ensures Valid() && down == old(down) && accepting == old(accepting)
      ensures r == (if !old(accepting) then Refused("SCHEDULER_CLOSED") else Ok(work.id !in old(known)))
      ensures r == Ok(true) ==>
                && log == old(log) + [Event.Submit(work)]
                && Now() == Step(limits, old(Now()), Event.Submit(work))
                && active == old(active) && pending == old(pending) + {work.id}
                && results == old(results) - {work.id}
      ensures r != Ok(true) ==>
                && Now() == old(Now()) && active == old(active) && results == old(results)
                && log == old(log) && known == old(known) && pending == old(pending)
    {
      hide Inv, QueuedIds, Legal, Accounted, Follows, QueueOf, Works, Limits.Positive;
      if !accepting {
        return Refused("SCHEDULER_CLOSED");
      }
      if work.id in known {
        return Ok(false);
      }
      ghost var before := Now();
      AccountSubmit(QueuedIds(queues), active.Keys, results, known, pending, work.id);
      WorksKeys(active);
      SubmitKeeps(limits, before, work);
      QueuedAfterSubmit(limits, before, work);
      FollowsNext(limits, log, before, Event.Submit(work));
      known := known + {work.id};
      results := results - {work.id};
      queues := queues[work.repository := QueueOf(Now(), work.repository) + [work]];
      if work.repository !in rotation {
        rotation := rotation + [work.repository];
      }
      log := log + [Event.Submit(work)];
      pending := pending + {work.id};
      assert Now() == Step(limits, before, Event.Submit(work));
      r := Ok(true);
    }

    method CloseIntake()
      requires Valid()
      modifies this`accepting
      ensures Valid() && !accepting
    {
      hide Inv, QueuedIds, Accounted, Follows, Works, Limits.Positive;
      accepting := false;
    }

    /** What a pass over the active works may not touch. */
    twostate predicate SameQueues()
      reads this
    {
      && queues == old(queues) && rotation == old(rotation) && dropped == old(dropped)
      && pending == old(pending) && down == old(down) && accepting == old(accepting)
    }

    /** The pass, for one work. */
    method Look(id: string, sight: Sight)
      requires Valid() && id in active
      modifies this
      ensures Valid() && SameQueues()
      ensures sight.end.None? ==>
                && active == old(active)[id := Seen(old(active)[id], sight)]
                && results == old(results) && log == old(log)
      ensures sight.end.Some? ==>
                && active == old(active) - {id}
                && results == old(results)[id := FinishedAs(Seen(old(active)[id], sight), sight.end.value)]
                && log == if down then old(log) else old(log) + [Finish(id)]
    {
      hide Inv, QueuedIds, Accounted, Follows, Works, Legal, Step, Limits.Positive;
      SeenSameWork(active, id, sight);
      if sight.late && active[id].work.timeout.Some? {
        active := active[id := active[id].(timedOut := true, cancelRequested := true)];
      }
      assert active == old(active)[id := Seen(old(active)[id], sight)] && active.Keys == old(active).Keys;
      if sight.end.None? {
        return;
      }
      Collect(id, sight.end.value);
      assert active == old(active) - {id};
    }

    /** An ended work leaves the active works with its result; a failed one may be
        submitted again. */
    method Collect(id: string, end: End)
      requires Valid() && id in active
      modifies this
      ensures Valid() && SameQueues() && active == old(active) - {id}
      ensures results == old(results)[id := FinishedAs(old(active)[id], end)]
      ensures log == if down then old(log) else old(log) + [Finish(id)]
    {
      hide Inv, QueuedIds, Accounted, Follows, Works, Legal, Step, Limits.Positive;
      var finished := match end
                      case Returned => if active[id].timedOut then TimedOut else Completed
                      case Raised => Failed;
      WorksKeys(active);
      ghost var before := Now();
      WorksWithout(active, id);
      FinishKeeps(limits, before, id);
      AccountFinish(QueuedIds(queues), active.Keys, results, known, pending, dropped, id, finished);
      if !down {
        FollowsNext(limits, log, before, Finish(id));
        log := log + [Finish(id)];
      }
      results := results[id := finished];
      if finished.Failed? {
        known := known - {id};
      }
      active := active - {id};
    }

    /** One pass over the active works: those seen ended leave with a result, the
        others stay and keep their capacity, marked if overdue. */
    method Reap(look: string -> Sight)
      requires Valid()
      modifies this
      ensures Valid() && SameQueues()
      ensures active == Kept(old(active), {}, look)
      ensures results == old(results) + Ended(old(active), {}, look)
      ensures OnlyFinishes(old(log), log)
    {
      hide FairScheduler.Valid, Seen, FinishedAs, Kept, Ended, OnlyFinishes;
      var todo := active.Keys;
      ghost var first, already := active, results;
      NoneSeen(first, look);
      NoEvents(log);
      while todo != {}
        invariant Valid() && SameQueues() && todo <= first.Keys
        invariant active == Kept(first, todo, look) && results == already + Ended(first, todo, look)
        invariant OnlyFinishes(old(log), log)
        decreases |todo|
      {
        var id :| id in todo;
        OneSeen(first, todo, look, id);
        if look(id).end.Some? {
          EndedLater(already, Ended(first, todo, look), id, FinishedAs(Seen(first[id], look(id)), look(id).end.value));
        }
        MoreFinishes(old(log), log, id);
        todo := todo - {id};
        Look(id, look(id));
      }
    }

    /** One turn of the dispatch loop: the repository at the front goes to the
        back, and its oldest work starts if the limits allow it. */
    method Examine() returns (started: bool)
      requires Valid() && rotation != [] && |active| < limits.total
      modifies this
      ensures Valid() && !down && !old(down)
      ensures accepting == old(accepting) && pending == old(pending) && results == old(results)
      ensures log == old(log) + [Event.Examine(old(rotation)[0])]
      ensures Now() == Step(limits, old(Now()), Event.Examine(old(rotation)[0]))
      ensures started <==> Dispatches(limits, old(Now()), Event.Examine(old(rotation)[0]))
      ensures started ==> |active| == |old(active)| + 1
      ensures !started ==> rotation == old(rotation)[1..] + [old(rotation)[0]] && queues == old(queues) && active == old(active)
    {
      hide Inv, QueuedIds, Legal, Accounted, Follows, Works, Limits.Positive, Eligible, Tallies, Waiting, Step, Dispatch, RemoveFirst;
      ghost var before := Now();
      ghost var turn := Event.Examine(rotation[0]);
      WorksKeys(active);
      SameSize(active);
      LegalTurn(limits, before);
      TurnKeepsInv(limits, before);
      TurnAccounts(limits, before, results, known, pending, dropped);
      FollowsNext(limits, log, before, turn);
      var repository := rotation[0];
      rotation := rotation[1..];
      var queue := queues[repository];
      var repositories, providers, models := Counts(Works(active));
      var work := queue[0];
      var reason := Waiting(limits, |active|, work, repositories, providers, models);
      WaitingExact(limits, Works(active), work, repositories, providers, models);
      StepOfTurn(limits, before);
      rotation := rotation + [repository];
      log := log + [turn];
      if reason.Some? {
        return false;
      }
      queue := queue[1..];
      if queue == [] {
        queues := queues - {repository};
        RemoveLast(old(rotation)[1..], repository);
        rotation := RemoveFirst(rotation, repository);
      } else {
        queues := queues[repository := queue];
      }
      WorksWith(active, work.id, Active(work, false, false));
      active := active[work.id := Active(work, false, false)];
      WorksKeys(active);
      started := true;
    }

    /** Dispatches until nothing can be dispatched: on return the global limit is
        reached or the head of every queue is ineligible. */
    method DispatchAll() returns (dispatched: nat)
      requires Valid()
      modifies this
      ensures Valid() && down == old(down) && accepting == old(accepting)
      ensures pending == old(pending) && results == old(results)
      ensures |active| == |old(active)| + dispatched
      ensures |active| == limits.total || AllWaiting(limits, Now())
      ensures NoSubmissions(old(log), log)
    {
      hide FairScheduler.Valid, NoSubmissions, Works, AllWaiting, LastWaiting, Inv, Dispatches, Step, Waits, Eligible, QueueOf;
      NoEvents(log);
      NoneSubmitted(log, log);
      NoneLooked(limits, Now());
      dispatched := 0;
      var skipped := 0;
      while rotation != [] && |active| < limits.total
        invariant Valid() && down == old(down) && accepting == old(accepting)
        invariant pending == old(pending) && results == old(results)
        invariant |active| == |old(active)| + dispatched
        invariant rotation != [] ==> skipped < |rotation|
        invariant LastWaiting(limits, Now(), if rotation == [] then 0 else skipped)
        invariant NoSubmissions(old(log), log)
        decreases limits.total - |active|, |rotation| - skipped
      {
        ghost var before, turns := Now(), log;
        WaitsOf(limits, before);
        var started := Examine();
        MoreEvents(old(log), turns, Event.Examine(before.rotation[0]));
        if !started {
          OneMoreWaiting(limits, before, skipped);
          skipped := skipped + 1;
          if skipped >= |rotation| {
            break;
          }
        } else {
          NoneLooked(limits, Now());
          skipped := 0;
          dispatched := dispatched + 1;
        }
      }
      OnePlaceNow();
      if rotation == [] || skipped >= |rotation| {
        EveryWaiting(limits, Now());
      }
    }

    /** One scheduling cycle. */
    method Tick(look: string -> Sight) returns (dispatched: nat)
      requires Valid()
      modifies this
      ensures Valid() && down == old(down) && accepting == old(accepting) && pending == old(pending)
      ensures results == old(results) + Ended(old(active), {}, look)
      ensures |active| == |Kept(old(active), {}, look)| + dispatched
      ensures |active| == limits.total || AllWaiting(limits, Now())
      ensures NoSubmissions(old(log), log)
    {
      hide FairScheduler.Valid, Kept, Ended, OnlyFinishes, NoSubmissions, Works, AllWaiting;
      Reap(look);
      ghost var reaped := log;
      NoneSubmitted(old(log), reaped);
      dispatched := DispatchAll();
      NoSubmissionsBetween(old(log), reaped, log);
    }

    lemma OnePlaceNow()
      requires Valid()
      ensures |active| <= limits.total && Inv(limits, Now())
    {
      hide QueuedIds, Accounted, Follows, Works, RotationExact, QueuesOwn, OnePlace;
      SameSize(active);
    }

    /** Results are released; the identities of works still active are retained. */
    method AcknowledgeCompleted()
      requires Valid()
      modifies this
      ensures Valid() && results == map[] && pending == old(pending) - old(results).Keys
      ensures known == old(known) - old(results).Keys
      ensures Now() == old(Now()) && active == old(active) && log == old(log)
      ensures down == old(down) && accepting == old(accepting) && dropped == old(dropped)
    {
      hide Inv, QueuedIds, Follows, Works, Limits.Positive, Accounted;
      AccountAcknowledge(QueuedIds(queues), active.Keys, results, known, pending, dropped);
      var completed := results.Keys;
      results := map[];
      pending := pending - completed;
      known := Release(known, completed, active.Keys);
      assert known == old(known) - completed;
    }

    /** Intake closes, cancellation is requested of every active work, ended works
        are collected at each look until the grace runs out, and the queues are
        cleared; what had not finished is returned. */
    method Shutdown(grace: int, looks: seq<string -> Sight>, last: string -> Sight) returns (r: Result<set<string>>)
      requires Valid()
      modifies this
      ensures Valid()
      ensures grace < 0 ==> r == Refused("SCHEDULER_LIMIT") && Now() == old(Now()) && accepting == old(accepting)
      ensures grace >= 0 ==>
                && !accepting && down && queues == map[] && rotation == []
                && pending == old(pending) && active.Keys <= old(active).Keys
                && r == Ok(active.Keys + QueuedIds(old(queues)))
                && r.value == pending - results.Keys - old(dropped)
    {
      hide Inv, QueuedIds, Follows, Works, Limits.Positive, FairScheduler.Valid, Kept, Ended, OnlyFinishes, Accounted;
      if grace < 0 {
        return Refused("SCHEDULER_LIMIT");
      }
      CloseIntake();
      RequestCancel();
      var i := 0;
      while i < |looks| && active != map[]
        invariant Valid() && queues == old(queues) && dropped == old(dropped) && pending == old(pending)
        invariant active.Keys <= old(active).Keys && !accepting && i <= |looks|
      {
        ghost var first := active;
        Reap(looks[i]);
        KeptFewer(first, looks[i]);
        i := i + 1;
      }
      ghost var first := active;
      Reap(last);
      KeptFewer(first, last);
      var unfinished := active.Keys + QueuedIds(queues);
      ClearQueues();
      r := Ok(unfinished);
    }

    method RequestCancel()
      requires Valid()
      modifies this`active
      ensures Valid() && Now() == old(Now()) && active.Keys == old(active).Keys
      ensures forall id <- active :: active[id] == old(active)[id].(cancelRequested := true)
    {
      hide Inv, QueuedIds, Accounted, Follows, Limits.Positive;
      active := map id | id in active :: active[id].(cancelRequested := true);
      assert Works(active) == Works(old(active)) && active.Keys == old(active).Keys;
    }

    method ClearQueues()
      requires Valid() && !accepting
      modifies this
      ensures Valid() && down && queues == map[] && rotation == [] && !accepting
      ensures active == old(active) && results == old(results) && pending == old(pending)
      ensures active.Keys + QueuedIds(old(queues)) == pending - results.Keys - old(dropped)
    {
      hide Inv, QueuedIds, Follows, Limits.Positive, Works;
      Cleared(limits, Now());
      AccountDrop(QueuedIds(queues), active.Keys, results, known, pending, dropped);
      dropped := dropped + QueuedIds(queues);
      queues, rotation, down := map[], [], true;
    }
  }
}
