/** The publication protocol as micro-steps: an observation, a durable change, a
    remote effect, or the end of the publisher, by crash or by giving up. */
module Publication {
  import opened Results

  datatype Stage = CandidatePending | CandidateConfirmed | PushPending | PushConfirmed | PullPending | PullConfirmed
                 | CheckPending | Complete

  datatype Status = Working | Blocked | Published

  datatype Invalidation = NotInvalidated | InvalidationPending | InvalidationConfirmed

  /** The durable publication record, without the documents it carries. */
  datatype Record = Record(stage: Stage, status: Status, invalidated: bool, invalidation: Invalidation,
                           checkDocument: bool, checkKnown: bool)

  /** What a publisher does outside the journal. */
  datatype Effect = Build | Push | CreatePull | CreateCheck | InvalidateCheck

  /** What a publisher can see: the task's gate is open, nobody asked it to stop, and
      the state of the branch head, the pull request and the check. */
  datatype Fact = GateOpen | NotCancelled | HeadAbsent | HeadIsCandidate | PullAbsent | PullIsOurs | CheckAbsent | CheckIsOurs
                | CheckIsInvalidated

  datatype Change =
    | CandidateIntent | CandidateBuilt | PushIntent | PushObserved | PullIntent | PullObserved | CheckIntent | Finish | Reconfirm
    | Block(invalid: bool) | CheckSeen | InvalidationIntent | InvalidationSeen

  /** The live publisher: it holds an intent it recorded, or what it sent. */
  datatype Hand = Empty | Armed(effect: Effect) | Sent(effect: Effect)

  datatype World = World(record: Option<Record>, hand: Hand, seen: set<Fact>)

  datatype Event = See(fact: Fact) | Commit(change: Change) | Issue(effect: Effect) | Stop

  const NOTHING := World(None, Empty, {})

  function Rank(s: Stage): nat {
    match s
    case CandidatePending => 0
    case CandidateConfirmed => 1
    case PushPending => 2
    case PushConfirmed => 3
    case PullPending => 4
    case PullConfirmed => 5
    case CheckPending => 6
    case Complete => 7
  }

  /** The stage a change continues from, for those that move the stage. */
  function From(c: Change): Option<Stage> {
    match c
    case CandidateBuilt => Some(CandidatePending)
    case PushIntent => Some(CandidateConfirmed)
    case PushObserved => Some(PushPending)
    case PullIntent => Some(PushConfirmed)
    case PullObserved => Some(PullPending)
    case CheckIntent => Some(PullConfirmed)
    case Finish => Some(CheckPending)
    case Reconfirm => Some(Complete)
    case _ => None
  }

  /** What must have been seen since the previous durable change. */
  function Needs(c: Change): set<Fact> {
    match c
    case CandidateIntent => {GateOpen, NotCancelled, HeadAbsent, PullAbsent}
    case CandidateBuilt => {}
    case PushIntent => {GateOpen, HeadAbsent}
    case PushObserved => {HeadIsCandidate}
    case PullIntent => {GateOpen, HeadIsCandidate, PullAbsent}
    case PullObserved => {PullIsOurs}
    case CheckIntent => {GateOpen, HeadIsCandidate, PullIsOurs}
    case Finish => {GateOpen, NotCancelled, HeadIsCandidate, CheckIsOurs}
    case Reconfirm => {GateOpen, NotCancelled, HeadIsCandidate, CheckIsOurs}
    case Block(_) => {}
    case CheckSeen => {CheckIsOurs}
    case InvalidationIntent => {CheckIsOurs}
    case InvalidationSeen => {CheckIsInvalidated}
  }

  /** What must have been seen since the intent before the effect goes out. */
  function Clears(e: Effect): set<Fact> {
    match e
    case Build => {NotCancelled}
    case Push => {GateOpen, NotCancelled}
    case CreatePull => {GateOpen, NotCancelled}
    case CreateCheck => {CheckAbsent, GateOpen, NotCancelled}
    case InvalidateCheck => {}
  }

  predicate Applies(w: World, c: Change) {
    match c
    case CandidateIntent => w.record.None?
    case CandidateBuilt =>
      && w.record.Some? && !w.record.value.invalidated && w.record.value.stage.CandidatePending?
      && w.hand == Sent(Build)
    case Block(_) => w.record.Some? && !w.record.value.invalidated
    case CheckSeen => w.record.Some? && w.record.value.invalidated && w.record.value.checkDocument && !w.record.value.checkKnown
    case InvalidationIntent =>
      && w.record.Some? && w.record.value.invalidated && w.record.value.checkDocument && w.record.value.checkKnown
      && w.record.value.invalidation.NotInvalidated?
    case InvalidationSeen => w.record.Some? && w.record.value.invalidated && w.record.value.invalidation.InvalidationPending?
    case Reconfirm =>
      && w.record.Some? && !w.record.value.invalidated && w.record.value.stage.Complete?
      && !w.record.value.status.Published?
    case _ => w.record.Some? && !w.record.value.invalidated && From(c) == Some(w.record.value.stage)
  }

  ghost predicate Legal(w: World, e: Event) {
    match e
    case See(_) => true
    case Commit(c) => Applies(w, c) && Needs(c) <= w.seen
    case Issue(effect) => w.hand == Armed(effect) && Clears(effect) <= w.seen
    case Stop => true
  }

  function IntentOf(c: Change): Option<Effect> {
    match c
    case CandidateIntent => Some(Build)
    case PushIntent => Some(Push)
    case PullIntent => Some(CreatePull)
    case CheckIntent => Some(CreateCheck)
    case InvalidationIntent => Some(InvalidateCheck)
    case _ => None
  }

  function Changed(r: Option<Record>, c: Change): Option<Record> {
    if r.None? then Some(Record(CandidatePending, Working, false, NotInvalidated, false, false))
    else
      var p := r.value;
      match c
      case CandidateIntent => r
      case CandidateBuilt => Some(p.(stage := CandidateConfirmed))
      case PushIntent => Some(p.(stage := PushPending))
      case PushObserved => Some(p.(stage := PushConfirmed))
      case PullIntent => Some(p.(stage := PullPending))
      case PullObserved => Some(p.(stage := PullConfirmed))
      case CheckIntent => Some(p.(checkDocument := true, stage := CheckPending))
      case Finish => Some(p.(checkKnown := true, stage := Complete, status := Published))
      case Reconfirm => Some(p.(status := Published))
      case Block(invalid) => Some(p.(status := Blocked, invalidated := invalid))
      case CheckSeen => Some(p.(checkKnown := true))
      case InvalidationIntent => Some(p.(invalidation := InvalidationPending))
      case InvalidationSeen => Some(p.(invalidation := InvalidationConfirmed))
  }

  function Step(w: World, e: Event): World {
    match e
    case See(fact) => w.(seen := w.seen + {fact})
    case Commit(c) => World(Changed(w.record, c), if IntentOf(c).Some? then Armed(IntentOf(c).value) else Empty, {})
    case Issue(effect) => w.(hand := Sent(effect))
    case Stop => w.(hand := Empty, seen := {})
  }

  function After(log: seq<Event>, n: nat): World
    requires n <= |log|
  {
    if n == 0 then NOTHING else Step(After(log, n - 1), log[n - 1])
  }

  /** Event `n` is lawful where it stands. */
  ghost predicate LegalAt(log: seq<Event>, n: nat)
    requires n < |log|
  {
    Legal(After(log, n), log[n])
  }

  ghost predicate LegalLog(log: seq<Event>) {
    forall n :: 0 <= n < |log| ==> LegalAt(log, n)
  }

  lemma StepAfter(log: seq<Event>, n: nat)
    requires LegalLog(log) && n < |log|
    ensures After(log, n + 1) == Step(After(log, n), log[n]) && Legal(After(log, n), log[n])
  {
    hide Legal, Step;
    assert LegalAt(log, n);
  }

  lemma Beginning(log: seq<Event>)
    ensures After(log, 0) == NOTHING
  {
  }

  // ---- At most once ----

  /** The intent of the effect is durable. */
  predicate Intended(r: Option<Record>, e: Effect) {
    r.Some? &&
    match e
    case Build => true
    case Push => Rank(r.value.stage) >= Rank(PushPending)
    case CreatePull => Rank(r.value.stage) >= Rank(PullPending)
    case CreateCheck => Rank(r.value.stage) >= Rank(CheckPending)
    case InvalidateCheck => !r.value.invalidation.NotInvalidated?
  }

  /** The stage never falls, intents and invalidation stay. */
  predicate Forward(r: Option<Record>, s: Option<Record>) {
    r.Some? ==>
      && s.Some? && Rank(r.value.stage) <= Rank(s.value.stage)
      && (r.value.invalidated ==> s.value.invalidated && !s.value.status.Published?)
      && (!r.value.invalidation.NotInvalidated? ==> !s.value.invalidation.NotInvalidated?)
  }

  /** A published record is complete; an invalidated one is not published; and with an
      invalidated record in the journal nothing but the invalidation is under way. */
  predicate Inv(w: World) {
    && (w.record.None? ==> w.hand.Empty?)
    && (w.hand.Armed? ==> Intended(w.record, w.hand.effect))
    && (w.hand.Armed? && w.record.value.invalidated ==> w.hand.effect.InvalidateCheck?)
    && (w.record.Some? && w.record.value.status.Published? ==> w.record.value.stage.Complete? && !w.record.value.invalidated)
    && (w.record.Some? && !w.record.value.invalidation.NotInvalidated? ==> w.record.value.invalidated)
  }

  lemma CommitFacts(w: World, c: Change)
    requires Inv(w) && Applies(w, c)
    ensures Forward(w.record, Changed(w.record, c))
    ensures Inv(Step(w, Commit(c)))
    ensures forall e :: IntentOf(c) == Some(e) ==> !Intended(w.record, e) && Intended(Changed(w.record, c), e)
    ensures forall e :: Intended(w.record, e) ==> Intended(Changed(w.record, c), e)
  {
  }

  lemma InvStep(w: World, e: Event)
    requires Inv(w) && Legal(w, e)
    ensures Inv(Step(w, e)) && Forward(w.record, Step(w, e).record)
  {
    hide Applies, Changed, Needs, Clears, Intended, IntentOf;
    if e.Commit? {
      CommitFacts(w, e.change);
    }
  }

  lemma {:induction false} InvAlways(log: seq<Event>, n: nat)
    requires LegalLog(log) && n <= |log|
    ensures Inv(After(log, n))
  {
    hide Inv, Legal, Step, After, LegalLog;
    if n == 0 {
      Beginning(log);
      assert Inv(NOTHING) by { NothingInv(); }
    } else {
      InvAlways(log, n - 1);
      StepAfter(log, n - 1);
      InvStep(After(log, n - 1), log[n - 1]);
    }
  }

  lemma NothingInv()
    ensures Inv(NOTHING)
  {
  }

  /** The effect went out, or its publisher is gone: it cannot go out again. */
  predicate Spent(w: World, e: Effect) {
    Intended(w.record, e) && w.hand != Armed(e)
  }

  lemma SpentKept(w: World, event: Event, e: Effect)
    requires Inv(w) && Spent(w, e) && Legal(w, event)
    ensures Spent(Step(w, event), e)
  {
    hide Applies, Changed, Needs, Clears, Intended, IntentOf, Inv;
    if event.Commit? {
      CommitFacts(w, event.change);
    }
  }

  lemma {:induction false} SpentAfterwards(log: seq<Event>, i: nat, n: nat, e: Effect)
    requires LegalLog(log) && i < n <= |log| && log[i] == Issue(e)
    ensures Spent(After(log, n), e)
  {
    hide Inv, Legal, Step, After, LegalLog, Spent;
    StepAfter(log, n - 1);
    InvAlways(log, n - 1);
    if n == i + 1 {
      SpentNow(After(log, i), e);
    } else {
      SpentAfterwards(log, i, n - 1, e);
      SpentKept(After(log, n - 1), log[n - 1], e);
    }
  }

  lemma SpentNow(w: World, e: Effect)
    requires Inv(w) && Legal(w, Issue(e))
    ensures Spent(Step(w, Issue(e)), e)
  {
    hide Clears, Intended;
  }

  lemma SpentNotIssued(w: World, e: Effect)
    requires Spent(w, e)
    ensures !Legal(w, Issue(e))
  {
  }

  /** Over any history of runs, crashes and lost answers every effect is issued at
      most once. */
  lemma IssuedOnce(log: seq<Event>, i: nat, j: nat)
    requires LegalLog(log) && i < j < |log| && log[i].Issue? && log[j].Issue?
    ensures log[i] != log[j]
  {
    hide Inv, Legal, Step, After, LegalLog, Spent;
    StepAfter(log, j);
    SpentAfterwards(log, i, j, log[i].effect);
    SpentNotIssued(After(log, j), log[i].effect);
  }

  predicate Intends(e: Event, effect: Effect) {
    e.Commit? && IntentOf(e.change) == Some(effect)
  }

  lemma {:induction false} ArmedBy(log: seq<Event>, n: nat, e: Effect)
    requires LegalLog(log) && n <= |log| && After(log, n).hand == Armed(e)
    ensures exists k :: 0 <= k < n && Intends(log[k], e) && forall m :: k < m < n ==> log[m].See?
  {
    hide Legal, After, LegalLog, IntentOf, Changed;
    Beginning(log);
    if n > 0 {
      StepAfter(log, n - 1);
      if log[n - 1].See? {
        ArmedBy(log, n - 1, e);
        var k :| 0 <= k < n - 1 && Intends(log[k], e) && forall m :: k < m < n - 1 ==> log[m].See?;
        assert forall m :: k < m < n ==> log[m].See?;
      } else {
        assert Intends(log[n - 1], e);
      }
    }
  }

  lemma {:induction false} SeenSince(log: seq<Event>, k: nat, n: nat, fact: Fact)
    requires LegalLog(log) && k < n <= |log| && log[k].Commit? && fact in After(log, n).seen
    ensures exists m :: k < m < n && log[m] == See(fact)
  {
    hide Legal, After, LegalLog, IntentOf, Changed;
    StepAfter(log, n - 1);
    if n > k + 1 && log[n - 1] != See(fact) {
      SeenSince(log, k, n - 1, fact);
    }
  }

  /** Every effect comes right after the commit of its own intent, with nothing in
      between but observations, and what clears it is among them. */
  lemma IntentFirst(log: seq<Event>, i: nat)
    requires LegalLog(log) && i < |log| && log[i].Issue?
    ensures exists k :: 0 <= k < i && Intends(log[k], log[i].effect)
              && (forall m :: k < m < i ==> log[m].See?)
              && (forall fact <- Clears(log[i].effect) :: exists m :: k < m < i && log[m] == See(fact))
  {
    hide Step, After, LegalLog, IntentOf, Clears;
    StepAfter(log, i);
    ArmedBy(log, i, log[i].effect);
    var k :| 0 <= k < i && Intends(log[k], log[i].effect) && forall m :: k < m < i ==> log[m].See?;
    forall fact <- Clears(log[i].effect)
      ensures exists m :: k < m < i && log[m] == See(fact)
    {
      SeenSince(log, k, i, fact);
    }
  }

  /** The fact was seen since the latest durable change of this very run. */
  ghost predicate Observed(log: seq<Event>, n: nat, fact: Fact)
    requires n <= |log|
  {
    exists m :: 0 <= m < n && log[m] == See(fact) && Undisturbed(log, m, n)
  }

  predicate Undisturbed(log: seq<Event>, m: nat, n: nat)
    requires m < n <= |log|
  {
    forall j :: m < j < n ==> !log[j].Commit? && log[j] != Stop
  }

  lemma {:induction false} SeenIsObserved(log: seq<Event>, n: nat, fact: Fact)
    requires LegalLog(log) && n <= |log| && fact in After(log, n).seen
    ensures Observed(log, n, fact)
  {
    hide Legal, After, LegalLog, IntentOf, Changed;
    Beginning(log);
    if n > 0 {
      StepAfter(log, n - 1);
      if log[n - 1] == See(fact) {
        assert Undisturbed(log, n - 1, n);
      } else {
        SeenIsObserved(log, n - 1, fact);
        var m :| 0 <= m < n - 1 && log[m] == See(fact) && Undisturbed(log, m, n - 1);
        assert Undisturbed(log, m, n);
      }
    }
  }

  /** What each effect does is intended by one durable change. */
  predicate IntendsIt(c: Change, e: Effect) {
    || (e == Build && c == CandidateIntent) || (e == Push && c == PushIntent) || (e == CreatePull && c == PullIntent)
    || (e == CreateCheck && c == CheckIntent) || (e == InvalidateCheck && c == InvalidationIntent)
  }

  lemma IntentsMean(e: Event, effect: Effect)
    ensures Intends(e, effect) <==> e.Commit? && IntendsIt(e.change, effect)
  {
  }

  /** No branch is pushed, no pull request and no check created without the gate found
      open and no cancellation found after the intent was recorded, no check either
      without looking for it, and no candidate built after a cancellation. */
  lemma EffectsCleared(log: seq<Event>, i: nat)
    requires LegalLog(log) && i < |log| && log[i].Issue?
    ensures exists k :: 0 <= k < i && log[k].Commit? && IntendsIt(log[k].change, log[i].effect) && ClearedSince(log, k, i)
  {
    hide LegalLog, IntentOf;
    IntentFirst(log, i);
    var k :| 0 <= k < i && Intends(log[k], log[i].effect) && (forall m :: k < m < i ==> log[m].See?)
             && (forall fact <- Clears(log[i].effect) :: exists m :: k < m < i && log[m] == See(fact));
    IntentsMean(log[k], log[i].effect);
    forall fact <- Clears(log[i].effect)
      ensures SeenBetween(log, k, i, fact)
    {
    }
  }

  predicate SeenBetween(log: seq<Event>, k: nat, i: nat, fact: Fact)
    requires i <= |log|
  {
    exists m :: k < m < i && log[m] == See(fact)
  }

  ghost predicate ClearedSince(log: seq<Event>, k: nat, i: nat)
    requires k < i < |log| && log[i].Issue?
  {
    && (forall m :: k < m < i ==> log[m].See?)
    && (log[i].effect != InvalidateCheck ==> SeenBetween(log, k, i, NotCancelled))
    && (log[i].effect == Push || log[i].effect == CreatePull || log[i].effect == CreateCheck ==>
          SeenBetween(log, k, i, GateOpen))
    && (log[i].effect == CreateCheck ==> SeenBetween(log, k, i, CheckAbsent))
  }

  /** The facts a durable change stands for. */
  function Grounds(c: Change): set<Fact> {
    match c
    case CandidateIntent => {GateOpen, NotCancelled, HeadAbsent, PullAbsent}
    case PushIntent => {GateOpen, HeadAbsent}
    case PushObserved => {HeadIsCandidate}
    case PullIntent => {GateOpen, HeadIsCandidate, PullAbsent}
    case PullObserved => {PullIsOurs}
    case CheckIntent => {GateOpen, HeadIsCandidate, PullIsOurs}
    case Finish => {CheckIsOurs, GateOpen, HeadIsCandidate, NotCancelled}
    case Reconfirm => {CheckIsOurs, GateOpen, HeadIsCandidate, NotCancelled}
    case CheckSeen => {CheckIsOurs}
    case InvalidationIntent => {CheckIsOurs}
    case InvalidationSeen => {CheckIsInvalidated}
    case _ => {}
  }

  /** No durable change is recorded on anything but what this run saw since the one
      before: nothing is confirmed or published from memory. */
  lemma ObservedFirst(log: seq<Event>, n: nat, fact: Fact)
    requires LegalLog(log) && n < |log| && log[n].Commit? && fact in Grounds(log[n].change)
    ensures Observed(log, n, fact)
  {
    hide After, LegalLog, Observed, Applies;
    StepAfter(log, n);
    SeenIsObserved(log, n, fact);
  }

  /** The stages a change leads between. */
  predicate Moves(c: Change, before: Stage, after: Stage) {
    || (c == CandidateBuilt && before == CandidatePending && after == CandidateConfirmed)
    || (c == PushIntent && before == CandidateConfirmed && after == PushPending)
    || (c == PushObserved && before == PushPending && after == PushConfirmed)
    || (c == PullIntent && before == PushConfirmed && after == PullPending)
    || (c == PullObserved && before == PullPending && after == PullConfirmed)
    || (c == CheckIntent && before == PullConfirmed && after == CheckPending)
    || (c == Finish && before == CheckPending && after == Complete)
    || (c == Reconfirm && before == Complete && after == Complete)
  }

  /** The changes that mark a check. */
  predicate Marks(c: Change) {
    c == CheckSeen || c == InvalidationIntent || c == InvalidationSeen
  }

  /** What each durable change does to a publication: it begins with nothing but an
      intent, goes on stage by stage, is published by its last stage or a
      reconfirmation alone, and once ended takes only what marks its check. */
  lemma ChangeMeans(w: World, c: Change)
    requires Applies(w, c)
    ensures var r := Changed(w.record, c);
            && r.Some?
            && (c == CandidateIntent <==> w.record == None)
            && (c == CandidateIntent ==> r == Some(Record(CandidatePending, Working, false, NotInvalidated, false, false)))
            && (w.record.Some? ==>
                  var p, q := w.record.value, r.value;
                  && (p.invalidated <==> Marks(c)) && (q.invalidated <==> p.invalidated || c == Block(true))
                  && (if c.Block? || Marks(c) then q.stage == p.stage else Moves(c, p.stage, q.stage))
                  && (q.status == if c == Finish || c == Reconfirm then Published else if c.Block? then Blocked else p.status)
                  && (c == Reconfirm ==> p.status != Published)
                  && (q.checkDocument <==> p.checkDocument || c == CheckIntent)
                  && (q.checkKnown <==> p.checkKnown || c == Finish || c == CheckSeen)
                  && (c == InvalidationSeen ==> p.invalidation == InvalidationPending)
                  && (c == CheckSeen ==> p.checkDocument && !p.checkKnown)
                  && (c == InvalidationIntent ==> p.checkDocument && p.checkKnown && p.invalidation == NotInvalidated)
                  && q.invalidation == if c == InvalidationIntent then InvalidationPending
                                       else if c == InvalidationSeen then InvalidationConfirmed else p.invalidation)
  {
  }

  // ---- Forward only ----

  lemma ForwardTwice(a: Option<Record>, b: Option<Record>, c: Option<Record>)
    requires Forward(a, b) && Forward(b, c)
    ensures Forward(a, c)
  {
  }

  /** The stage only moves forward, and an invalidated publication is never
      published again. */
  lemma {:induction false} OnlyForward(log: seq<Event>, i: nat, n: nat)
    requires LegalLog(log) && i < n <= |log|
    ensures Forward(After(log, i).record, After(log, n).record)
  {
    hide Inv, Legal, Step, After, LegalLog, Forward;
    InvAlways(log, n - 1);
    StepAfter(log, n - 1);
    InvStep(After(log, n - 1), log[n - 1]);
    if i < n - 1 {
      OnlyForward(log, i, n - 1);
      ForwardTwice(After(log, i).record, After(log, n - 1).record, After(log, n).record);
    }
  }

  /** Published means complete and not invalidated, in every reachable state. */
  lemma PublishedIsComplete(log: seq<Event>, n: nat)
    requires LegalLog(log) && n <= |log|
    requires After(log, n).record.Some? && After(log, n).record.value.status.Published?
    ensures After(log, n).record.value.stage.Complete? && !After(log, n).record.value.invalidated
  {
    hide Legal, Step, After, LegalLog;
    InvAlways(log, n);
  }

  predicate Invalidated(w: World) {
    w.record.Some? && w.record.value.invalidated
  }

  lemma OnlyInvalidation(w: World, e: Effect)
    requires Inv(w) && Invalidated(w) && Legal(w, Issue(e))
    ensures e.InvalidateCheck?
  {
    hide Clears;
  }

  /** Once invalidated, nothing is created any more; the one effect left is to mark
      the check. */
  lemma NothingAfterInvalidation(log: seq<Event>, i: nat, n: nat)
    requires LegalLog(log) && i <= n < |log| && Invalidated(After(log, i)) && log[n].Issue?
    ensures log[n].effect.InvalidateCheck?
  {
    hide Inv, Legal, Step, After, LegalLog;
    if i < n {
      OnlyForward(log, i, n);
    }
    InvAlways(log, n);
    StepAfter(log, n);
    OnlyInvalidation(After(log, n), log[n].effect);
  }

  /** Nothing is invalidated that was not to be: the check is marked only after the
      publication was invalidated. */
  lemma InvalidationAfterInvalidated(log: seq<Event>, n: nat)
    requires LegalLog(log) && n < |log| && log[n] == Issue(InvalidateCheck)
    ensures Invalidated(After(log, n))
  {
    hide Step, After, LegalLog, Clears;
    InvAlways(log, n);
    StepAfter(log, n);
  }
}
