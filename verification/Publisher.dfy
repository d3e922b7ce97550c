/** The publisher: one run walks the stages from wherever the durable record stands,
    asking the outside world at every step. */
module Publisher {
  import opened Results
  import opened Publication

  datatype Code = RefChanged | BaseChanged | PullChanged | PolicyChanged | WorkspaceChanged | BasisChanged | CheckChanged
                | ApprovalRevoked | CommandForbidden | TaskTerminal | TaskCancelling | RepositoryPolicyChanged | SourceChanged
                | AgentPaused | RepositoryDisabled | IssueClosed | ApprovalRequired | StartRequired
                | EffectUnknown | PullConflict | CheckConflict | Cancelled | NotReady | BuildRecoveryRequired | OtherCode(code: string)

  /** The failures that end a publication for good. */
  predicate IsInvalidating(c: Code) {
    !(c.EffectUnknown? || c.PullConflict? || c.CheckConflict? || c.Cancelled? || c.NotReady?
      || c.BuildRecoveryRequired? || c.OtherCode?)
  }

  /** The remote is not what this publication left there. */
  predicate RemoteMoved(c: Code) {
    c == RefChanged || c == BaseChanged || c == PullChanged || c == PolicyChanged || c == CheckChanged
  }

  /** What was verified, approved or asked for is not what would be published. */
  predicate BasisGone(c: Code) {
    || c == WorkspaceChanged || c == BasisChanged || c == RepositoryPolicyChanged || c == RepositoryDisabled
    || c == SourceChanged || c == IssueClosed || c == TaskTerminal || c == TaskCancelling || c == AgentPaused
    || c == ApprovalRequired || c == ApprovalRevoked || c == CommandForbidden || c == StartRequired
  }

  /** A publication ends for good exactly when the remote moved or its basis is gone; a
      cancelled run, an agent that is not ready, an effect of unknown outcome, a
      conflict and any other failure only block it. */
  lemma EndsExactly(c: Code)
    ensures IsInvalidating(c) <==> RemoteMoved(c) || BasisGone(c)
    ensures IsInvalidating(c) ==>
              c != Cancelled && c != NotReady && c != EffectUnknown && c != BuildRecoveryRequired
              && c != PullConflict && c != CheckConflict && !c.OtherCode?
  {
  }

  datatype Head = AbsentHead | CandidateHead | OtherHead

  datatype PullState = NoPull | OurPull | OtherPull

  datatype CheckState = NoCheck | OurCheck | MarkedCheck | OtherCheck

  /** What GitHub holds of this publication. */
  datatype Hub = Hub(head: Head, pull: PullState, check: CheckState)

  /** What comes with one question or call: nothing special, others changing the
      remote first, a failure, or the death of the process; of a call that fails or
      is cut off, whether it took effect. */
  datatype Answer = Fine | Meddled(hub: Hub) | Fails(code: Code, applied: bool) | Dies(applied: bool)

  datatype Stopped = Died | Failed(code: Code)

  function Applied(m: Hub, e: Effect): Hub {
    match e
    case Build => m
    case Push => m.(head := CandidateHead)
    case CreatePull => m.(pull := OurPull)
    case CreateCheck => m.(check := OurCheck)
    case InvalidateCheck => m.(check := MarkedCheck)
  }

  /** Nobody else touched the remote: it holds what the stages before the present one
      did, and of the present one's effect all or nothing. */
  predicate Untouched(r: Option<Record>, m: Hub) {
    if r.None? then m == Hub(AbsentHead, NoPull, NoCheck)
    else
      match r.value.stage
      case CandidatePending => m == Hub(AbsentHead, NoPull, NoCheck)
      case CandidateConfirmed => m == Hub(AbsentHead, NoPull, NoCheck)
      case PushPending => !m.head.OtherHead? && m.pull.NoPull? && m.check.NoCheck?
      case PushConfirmed => m == Hub(CandidateHead, NoPull, NoCheck)
      case PullPending => m.head.CandidateHead? && !m.pull.OtherPull? && m.check.NoCheck?
      case PullConfirmed => m == Hub(CandidateHead, OurPull, NoCheck)
      case CheckPending => m.head.CandidateHead? && m.pull.OurPull? && (m.check.NoCheck? || m.check.OurCheck?)
      case Complete => m == Hub(CandidateHead, OurPull, OurCheck)
  }

  predicate PushTook(r: Option<Record>, m: Hub) {
    r.Some? ==> !r.value.stage.CandidatePending? && (r.value.stage.PushPending? ==> m.head.CandidateHead?)
  }

  predicate PullTook(r: Option<Record>, m: Hub) {
    r.Some? && r.value.stage.PullPending? ==> m.pull.OurPull?
  }

  predicate CheckTook(r: Option<Record>, m: Hub) {
    r.Some? && r.value.stage.CheckPending? ==> m.check.OurCheck?
  }

  /** The effect a crash may have cut off did happen. */
  predicate Happened(r: Option<Record>, m: Hub) {
    PushTook(r, m) && PullTook(r, m) && CheckTook(r, m)
  }

  /** The hub holds something at this stage that ends the publication: another head,
      somebody else's pull request or check, or nothing where its own was confirmed.
      What a lost answer may explain, and what was there before its turn, does not. */
  predicate HubEnds(s: Stage, m: Hub) {
    if s == CandidatePending then false
    else if (s == CandidateConfirmed && m.head != AbsentHead) || (s == PushPending && m.head == OtherHead)
            || (s != CandidateConfirmed && s != PushPending && m.head != CandidateHead) then true
    else if s == PushPending && m.head == AbsentHead then false
    else if m.pull == OtherPull || (m.pull == NoPull && (s == PullConfirmed || s == CheckPending || s == Complete)) then true
    else if (m.pull == OurPull && (s == CandidateConfirmed || s == PushPending || s == PushConfirmed))
            || (m.pull == NoPull && s == PullPending) then false
    else m.check == OtherCheck || m.check == MarkedCheck
  }

  predicate GaveUp(s: Option<Stopped>) {
    s == Some(Failed(EffectUnknown)) || s == Some(Failed(BuildRecoveryRequired))
  }

  lemma GaveUpHarmless(s: Option<Stopped>)
    requires GaveUp(s)
    ensures s.Some? && s.value.Failed? && !RemoteMoved(s.value.code) && !BasisGone(s.value.code)
  {
  }

  /** The walk stopped with a failure that ends the publication. */
  predicate Ends(s: Option<Stopped>) {
    s.Some? && s.value.Failed? && (RemoteMoved(s.value.code) || BasisGone(s.value.code))
  }

  /** The publication's own check is out and not marked yet. */
  predicate Markable(r: Option<Record>, m: Hub) {
    r.Some? && r.value.checkDocument && r.value.invalidation.NotInvalidated? && m.check.OurCheck?
  }

  lemma CodesThatEnd()
    ensures Ends(Some(Failed(RefChanged))) && Ends(Some(Failed(PullChanged))) && Ends(Some(Failed(CheckChanged)))
    ensures !Ends(None) && !Ends(Some(Failed(EffectUnknown))) && !Ends(Some(Failed(BuildRecoveryRequired)))
    ensures !Ends(Some(Failed(PullConflict))) && !Ends(Some(Failed(CheckConflict)))
  {
  }

  predicate WrongHead(s: Stage, m: Hub) {
    if s == CandidateConfirmed then m.head != AbsentHead
    else if s == PushPending then m.head == OtherHead else m.head != CandidateHead
  }

  lemma HubHead(s: Stage, m: Hub)
    ensures s == CandidatePending ==> !HubEnds(s, m)
    ensures s != CandidatePending && WrongHead(s, m) ==> HubEnds(s, m)
    ensures s == PushPending && m.head == AbsentHead ==> !HubEnds(s, m)
  {
  }

  /** The head is as expected, or about to be pushed. */
  predicate RightHead(s: Stage, m: Hub) {
    s != CandidatePending && !WrongHead(s, m) && !(s == PushPending && m.head == AbsentHead)
  }

  lemma HubPull(s: Stage, m: Hub)
    requires RightHead(s, m)
    ensures m.pull == OtherPull || (m.pull == NoPull && Rank(s) >= Rank(PullConfirmed)) ==> HubEnds(s, m)
    ensures m.pull == OurPull && Rank(s) <= Rank(PushConfirmed) ==> !HubEnds(s, m)
    ensures m.pull == NoPull && s == PullPending ==> !HubEnds(s, m)
  {
  }

  lemma HubCheck(s: Stage, m: Hub)
    requires RightHead(s, m)
    requires if Rank(s) <= Rank(PushConfirmed) then m.pull == NoPull else m.pull == OurPull
    ensures HubEnds(s, m) <==> m.check == OtherCheck || m.check == MarkedCheck
  {
  }

  /** Nothing stands in the way. */
  predicate Easy(answers: seq<Answer>, r: Option<Record>, m: Hub) {
    answers == [] && Untouched(r, m)
  }

  datatype Ran = Returned(record: Record) | Raised(code: Code) | Lost

  ghost predicate Follows(log: seq<Event>, w: World) {
    LegalLog(log) && After(log, |log|) == w
  }

  lemma {:induction false} AfterPrefix(log: seq<Event>, e: Event, n: nat)
    requires n <= |log|
    ensures After(log + [e], n) == After(log, n)
  {
    hide Step;
    if n > 0 {
      AfterPrefix(log, e, n - 1);
    }
  }

  lemma OneAfter(log: seq<Event>, n: nat)
    requires n < |log|
    ensures After(log, n + 1) == Step(After(log, n), log[n])
  {
    hide Step;
  }

  lemma FollowsNext(log: seq<Event>, w: World, e: Event)
    requires Follows(log, w) && Legal(w, e)
    ensures Follows(log + [e], Step(w, e))
  {
    hide Step, Legal, After;
    var longer := log + [e];
    forall n | 0 <= n < |longer|
      ensures LegalAt(longer, n)
    {
      AfterPrefix(log, e, n);
      assert n < |log| ==> LegalAt(log, n);
    }
    AfterPrefix(log, e, |log|);
    OneAfter(longer, |log|);
  }

  /** A publication that may still proceed, at a stage. */
  predicate At(w: World, s: Stage) {
    w.record.Some? && !w.record.value.invalidated && w.record.value.stage == s
  }

  predicate MayProceed(w: World) {
    w.record.Some? ==> !w.record.value.invalidated
  }

  class PublicationCoordinator {
    var record: Option<Record>
    var remote: Hub
    /** What comes with the next questions and calls; nothing special once used up. */
    var answers: seq<Answer>
    ghost var world: World
    ghost var log: seq<Event>

    ghost predicate Valid()
      reads this
    {
      Follows(log, world) && world.record == record
    }

    constructor ()
      ensures Valid() && record.None? && log == [] && world == NOTHING
    {
      record, answers, remote := None, [], Hub(AbsentHead, NoPull, NoCheck);
      world, log := NOTHING, [];
      new;
      Nothing();
    }

    lemma Nothing()
      ensures Follows([], NOTHING)
    {
    }

    ghost method Happens(e: Event)
      requires Valid() && Legal(world, e) && !e.Commit?
      modifies this`world, this`log
      ensures Valid() && world == Step(old(world), e) && log == old(log) + [e]
    {
      hide Follows;
      FollowsNext(log, world, e);
      world := Step(world, e);
      log := log + [e];
    }

    method Ask() returns (a: Answer)
      modifies this`answers, this`remote
      ensures old(answers) == [] ==> a == Fine && answers == []
      ensures old(answers) != [] ==> a == old(answers)[0] && answers == old(answers)[1..]
      ensures remote == if a.Meddled? then a.hub else old(remote)
    {
      if answers == [] {
        return Fine;
      }
      a := answers[0];
      answers := answers[1..];
      if a.Meddled? {
        remote := a.hub;
      }
    }

    /** Without obstacles a question changes nothing outside and stays unobstructed. */
    twostate predicate Smooth(new s: Option<Stopped>)
      reads this
    {
      old(answers) == [] ==> answers == [] && remote == old(remote) && s.None?
    }

    /** The next answer decides: a failure is passed on with its code. */
    twostate predicate Told(new s: Option<Stopped>)
      reads this
    {
      old(answers) != [] ==>
        && answers == old(answers)[1..]
        && remote == (if old(answers)[0].Meddled? then old(answers)[0].hub else old(remote))
        && match old(answers)[0]
           case Fails(code, _) => s == Some(Failed(code))
           case Dies(_) => s == Some(Died)
           case _ => s.None?
    }

    /** The task's gate is open, or the run stops with the reason. */
    method Gate() returns (s: Option<Stopped>)
      requires Valid()
      modifies this
      ensures Valid() && record == old(record) && Smooth(s) && Told(s)
      ensures world == if s.None? then old(world).(seen := old(world).seen + {GateOpen}) else old(world)
    {
      hide Follows;
      s := Require(GateOpen);
    }

    /** Nobody asked the publisher to stop. */
    method Running() returns (s: Option<Stopped>)
      requires Valid()
      modifies this
      ensures Valid() && record == old(record) && Smooth(s) && Told(s)
      ensures world == if s.None? then old(world).(seen := old(world).seen + {NotCancelled}) else old(world)
    {
      hide Follows;
      s := Require(NotCancelled);
    }

    method Require(fact: Fact) returns (s: Option<Stopped>)
      requires Valid()
      modifies this
      ensures Valid() && record == old(record) && Smooth(s) && Told(s)
      ensures world == if s.None? then old(world).(seen := old(world).seen + {fact}) else old(world)
    {
      hide Follows;
      var a := Ask();
      match a {
        case Dies(_) => s := Some(Died);
        case Fails(code, _) => s := Some(Failed(code));
        case _ => Happens(See(fact)); s := None;
      }
    }

    /** Policy, base and branch head. */
    method Remote() returns (s: Option<Stopped>, head: Head)
      requires Valid()
      modifies this
      ensures Valid() && record == old(record) && world.record == old(world).record && world.hand == old(world).hand
      ensures old(world).seen <= world.seen && Smooth(s) && (s.None? ==> head == remote.head)
      ensures s.None? && head.AbsentHead? ==> HeadAbsent in world.seen
      ensures s.None? && head.CandidateHead? ==> HeadIsCandidate in world.seen
    {
      hide Follows;
      s, head := None, OtherHead;
      var a := Ask();
      if a.Dies? { return Some(Died), head; }
      if a.Fails? { return Some(Failed(a.code)), head; }
      head := remote.head;
      if head.CandidateHead? {
        Happens(See(HeadIsCandidate));
      } else if head.AbsentHead? {
        Happens(See(HeadAbsent));
      }
    }

    method Pull() returns (s: Option<Stopped>, found: bool)
      requires Valid()
      modifies this
      ensures Valid() && record == old(record) && world.record == old(world).record && world.hand == old(world).hand
      ensures old(world).seen <= world.seen && (!old(remote).pull.OtherPull? ==> Smooth(s))
      ensures s.None? ==> (if found then PullIsOurs else PullAbsent) in world.seen
      ensures s.None? ==> (found <==> remote.pull.OurPull?)
      ensures old(answers) == [] ==>
                answers == [] && remote == old(remote) && s == if remote.pull.OtherPull? then Some(Failed(PullChanged)) else None
    {
      hide Follows;
      s, found := None, false;
      var a := Ask();
      if a.Dies? { return Some(Died), false; }
      if a.Fails? { return Some(Failed(a.code)), false; }
      match remote.pull {
        case OurPull => Happens(See(PullIsOurs)); found := true;
        case NoPull => Happens(See(PullAbsent));
        case OtherPull => s := Some(Failed(PullChanged));
      }
    }

    method FindCheck(invalidated: bool) returns (s: Option<Stopped>, found: bool)
      requires Valid()
      modifies this
      ensures Valid() && record == old(record) && world.record == old(world).record && world.hand == old(world).hand
      ensures old(world).seen <= world.seen
      ensures !invalidated && (old(remote).check.NoCheck? || old(remote).check.OurCheck?) ==> Smooth(s)
      ensures s.None? && found ==> (if invalidated then CheckIsInvalidated else CheckIsOurs) in world.seen
      ensures s.None? && !found ==> CheckAbsent in world.seen
      ensures s.None? ==> (found <==> !remote.check.NoCheck?)
      ensures old(answers) == [] ==>
                && answers == [] && remote == old(remote)
                && s == if remote.check.NoCheck? || remote.check == (if invalidated then MarkedCheck else OurCheck) then None
                        else Some(Failed(CheckChanged))
    {
      hide Follows;
      s, found := None, false;
      var a := Ask();
      if a.Dies? { return Some(Died), false; }
      if a.Fails? { return Some(Failed(a.code)), false; }
      if remote.check.NoCheck? {
        Happens(See(CheckAbsent));
      } else if remote.check == (if invalidated then MarkedCheck else OurCheck) {
        Happens(See(if invalidated then CheckIsInvalidated else CheckIsOurs));
        found := true;
      } else {
        s := Some(Failed(CheckChanged));
      }
    }

    /** One durable change; the process may die before it. */
    method Change(c: Publication.Change) returns (s: Option<Stopped>)
      requires Valid() && Applies(world, c) && Needs(c) <= world.seen
      modifies this
      ensures Valid()
      ensures s.None? ==> world == Step(old(world), Commit(c)) && log == old(log) + [Commit(c)]
      ensures s.Some? ==> s == Some(Died) && world == old(world) && log == old(log)
      ensures Smooth(s)
    {
      hide Follows, Applies, Needs, Changed;
      var a := Ask();
      if a.Dies? {
        return Some(Died);
      }
      FollowsNext(log, world, Commit(c));
      world := Step(world, Commit(c));
      log := log + [Commit(c)];
      record := Changed(record, c);
      s := None;
    }

    /** One call outside; its answer may be lost after it took effect. */
    method Send(e: Effect) returns (s: Option<Stopped>)
      requires Valid() && world.hand == Armed(e) && Clears(e) <= world.seen
      modifies this
      ensures Valid() && record == old(record) && world == old(world).(hand := Sent(e)) && log == old(log) + [Issue(e)]
      ensures old(answers) == [] ==> answers == [] && remote == Applied(old(remote), e) && s.None?
    {
      hide Follows, Clears;
      var a := Ask();
      Happens(Issue(e));
      match a {
        case Dies(applied) =>
          if applied { remote := Applied(remote, e); }
          s := Some(Died);
        case Fails(code, applied) =>
          if applied { remote := Applied(remote, e); }
          s := Some(Failed(code));
        case _ =>
          remote := Applied(remote, e);
          s := None;
      }
    }

    method StartCandidate() returns (s: Option<Stopped>)
      requires Valid() && record.None? && {GateOpen, NotCancelled} <= world.seen
      modifies this
      ensures Valid() && MayProceed(world) && (s.None? ==> At(world, CandidateConfirmed))
      ensures old(remote) == Hub(AbsentHead, NoPull, NoCheck) ==> Smooth(s)
    {
      hide Follows;
      var head, found;
      s, head := Remote();
      if s.Some? { return; }
      if !head.AbsentHead? { return Some(Failed(RefChanged)); }
      s, found := Pull();
      if s.Some? { return; }
      if found { return Some(Failed(PullConflict)); }
      s := Change(CandidateIntent);
      if s.Some? { return; }
      s := Running();
      if s.Some? { return; }
      s := Send(Build);
      if s.Some? { return; }
      s := Change(CandidateBuilt);
    }

    method PushCandidate() returns (s: Option<Stopped>, head: Head)
      requires Valid() && At(world, CandidateConfirmed) && {GateOpen, HeadAbsent} <= world.seen
      modifies this
      ensures Valid() && MayProceed(world) && (s.None? ==> At(world, PushPending))
      ensures s.None? && head.CandidateHead? ==> HeadIsCandidate in world.seen
      ensures old(answers) == [] ==> answers == [] && remote == Applied(old(remote), Push) && s.None? && head == remote.head
    {
      hide Follows;
      head := OtherHead;
      s := Change(PushIntent);
      if s.Some? { return; }
      s := Gate();
      if s.Some? { return; }
      s := Running();
      if s.Some? { return; }
      s := Send(Push);
      if s.Some? { return; }
      s, head := Remote();
    }

    method OpenPull() returns (s: Option<Stopped>, found: bool)
      requires Valid() && At(world, PushConfirmed) && PullAbsent in world.seen
      modifies this
      ensures Valid() && MayProceed(world) && (s.None? ==> At(world, PullPending))
      ensures s.None? && found ==> PullIsOurs in world.seen
      ensures old(answers) == [] && old(remote).head.CandidateHead? ==>
                answers == [] && remote == Applied(old(remote), CreatePull) && s.None? && found
    {
      hide Follows;
      found := false;
      s := Gate();
      if s.Some? { return; }
      var head;
      s, head := Remote();
      if s.Some? { return; }
      if !head.CandidateHead? { return Some(Failed(RefChanged)), false; }
      s := Change(PullIntent);
      if s.Some? { return; }
      s := Gate();
      if s.Some? { return; }
      s := Running();
      if s.Some? { return; }
      s := Send(CreatePull);
      if s.Some? { return; }
      s, found := Pull();
    }

    method AddCheck() returns (s: Option<Stopped>)
      requires Valid() && At(world, PullConfirmed)
      modifies this
      ensures Valid() && record.Some? && MayProceed(world) && (s.None? ==> At(world, CheckPending))
      ensures old(answers) == [] && old(remote) == Hub(CandidateHead, OurPull, NoCheck) ==>
                answers == [] && remote == Applied(old(remote), CreateCheck) && s.None?
      ensures old(answers) == [] && old(remote).head.CandidateHead? && old(remote).pull.OurPull? ==>
                && answers == []
                && (s.None? ==> old(remote).check.NoCheck?)
                && (s.Some? ==> s == Some(Failed(if old(remote).check.OurCheck? then CheckConflict else CheckChanged)))
                && (s.Some? <==> !old(remote).check.NoCheck?)
    {
      hide Follows;
      s := Gate();
      if s.Some? { return; }
      var head, found;
      s, head := Remote();
      if s.Some? { return; }
      if !head.CandidateHead? { return Some(Failed(RefChanged)); }
      s, found := Pull();
      if s.Some? { return; }
      if !found { return Some(Failed(PullChanged)); }
      s := Change(CheckIntent);
      if s.Some? { return; }
      s, found := FindCheck(false);
      if s.Some? { return; }
      if found { return Some(Failed(CheckConflict)); }
      s := Gate();
      if s.Some? { return; }
      s := Running();
      if s.Some? { return; }
      s := Send(CreateCheck);
    }

    method Confirm() returns (s: Option<Stopped>)
      requires Valid() && (At(world, CheckPending) || At(world, Complete))
      modifies this
      ensures Valid() && MayProceed(world) && record.Some?
      ensures s.None? ==> At(world, Complete) && record.value.status.Published?
      ensures old(remote) == Hub(CandidateHead, OurPull, OurCheck) ==> Smooth(s)
      ensures old(answers) == [] && old(remote).check.NoCheck? ==> s == Some(Failed(EffectUnknown)) && answers == []
      ensures old(answers) == [] && old(remote).head.CandidateHead? && old(remote).pull.OurPull? ==>
                && answers == [] && (s.None? <==> old(remote).check.OurCheck?)
                && (!old(remote).check.OurCheck? && !old(remote).check.NoCheck? ==> s == Some(Failed(CheckChanged)))
    {
      hide Follows;
      var head, found;
      s, found := FindCheck(false);
      if s.Some? { return; }
      if !found { return Some(Failed(EffectUnknown)); }
      s := Gate();
      if s.Some? { return; }
      s, head := Remote();
      if s.Some? { return; }
      if !head.CandidateHead? { return Some(Failed(RefChanged)); }
      s, found := Pull();
      if s.Some? { return; }
      s := Running();
      if s.Some? { return; }
      if record.value.stage.Complete? {
        if !record.value.status.Published? {
          s := Change(Reconfirm);
        }
      } else {
        s := Change(Finish);
      }
    }

    /** The candidate, built now or before, with the gate open and the head seen. */
    method Prepare() returns (s: Option<Stopped>, head: Head)
      requires Valid() && MayProceed(world)
      modifies this
      ensures Valid() && MayProceed(world)
      ensures old(record).Some? && old(answers) == [] ==>
                && answers == [] && remote == old(remote) && record == old(record)
                && (if old(record).value.stage.CandidatePending? then s == Some(Failed(BuildRecoveryRequired))
                    else s.None? && head == remote.head)
      ensures old(record).Some? && |old(answers)| >= 2 && (old(answers)[0].Fine? || old(answers)[0].Meddled?) && old(answers)[1].Fails? ==>
                s == Some(Failed(old(answers)[1].code)) && record == old(record) && answers == old(answers)[2..]
                && (old(answers)[0].Fine? ==> remote == old(remote))
      ensures s.None? ==> record.Some? && !record.value.stage.CandidatePending? && GateOpen in world.seen
      ensures s.None? && head.AbsentHead? ==> HeadAbsent in world.seen
      ensures s.None? && head.CandidateHead? ==> HeadIsCandidate in world.seen
      ensures Easy(old(answers), old(record), old(remote)) ==>
                && answers == [] && remote == old(remote) && (if s.None? then head == remote.head else GaveUp(s) && record.Some?)
                && (s.None? <==> !(old(record).Some? && old(record).value.stage.CandidatePending?))
                && (s.None? ==> if old(record).None? then record.value.stage.CandidateConfirmed? else record == old(record))
    {
      hide Follows;
      head := OtherHead;
      s := Running();
      if s.Some? { return; }
      s := Gate();
      if s.Some? { return; }
      if record.None? {
        s := StartCandidate();
        if s.Some? { return; }
      }
      if record.value.stage.CandidatePending? {
        return Some(Failed(BuildRecoveryRequired)), head;
      }
      s := Gate();
      if s.Some? { return; }
      s, head := Remote();
    }

    /** From the candidate to the confirmed push. */
    method ThroughPush() returns (s: Option<Stopped>)
      requires Valid() && MayProceed(world)
      modifies this
      ensures old(record).Some? && |old(answers)| >= 2 && (old(answers)[0].Fine? || old(answers)[0].Meddled?) && old(answers)[1].Fails? ==>
                s == Some(Failed(old(answers)[1].code)) && record == old(record) && answers == old(answers)[2..]
                && (old(answers)[0].Fine? ==> remote == old(remote))
      ensures old(record).Some? && old(answers) == [] ==>
                var at, head := old(record).value.stage, old(remote).head;
                && record.Some? && answers == []
                && (if at.CandidatePending? then s == Some(Failed(BuildRecoveryRequired))
                    else if at.PushPending? && head.AbsentHead? then s == Some(Failed(EffectUnknown))
                    else if (if at.CandidateConfirmed? then !head.AbsentHead? else !head.CandidateHead?) then s == Some(Failed(RefChanged))
                    else
                      && s.None? && remote == old(remote).(head := CandidateHead)
                      && record.value.stage == if Rank(at) < Rank(PushConfirmed) then PushConfirmed else at)
      ensures Valid() && MayProceed(world)
      ensures s.None? ==> record.Some? && Rank(record.value.stage) >= Rank(PushConfirmed)
      ensures Easy(old(answers), old(record), old(remote)) ==>
                && answers == [] && (s.None? || (GaveUp(s) && record.Some?)) && (s.None? <==> PushTook(old(record), old(remote)))
                && (s.None? ==>
                      && Untouched(record, remote)
                      && (PullTook(record, remote) <==> PullTook(old(record), old(remote)))
                      && (CheckTook(record, remote) <==> CheckTook(old(record), old(remote))))
    {
      hide Follows;
      var head;
      s, head := Prepare();
      if s.Some? { return; }
      if record.value.stage.CandidateConfirmed? {
        if !head.AbsentHead? { return Some(Failed(RefChanged)); }
        s, head := PushCandidate();
        if s.Some? { return; }
      }
      if record.value.stage.PushPending? {
        if head.AbsentHead? { return Some(Failed(EffectUnknown)); }
        if !head.CandidateHead? { return Some(Failed(RefChanged)); }
        s := Change(PushObserved);
        if s.Some? { return; }
      }
      if !head.CandidateHead? { return Some(Failed(RefChanged)); }
    }

    /** From the confirmed push to the confirmed pull request. */
    method ThroughPull() returns (s: Option<Stopped>)
      requires Valid() && MayProceed(world) && record.Some? && Rank(record.value.stage) >= Rank(PushConfirmed)
      modifies this
      ensures old(answers) == [] && old(remote).head.CandidateHead? ==>
                var at, pull := old(record).value.stage, old(remote).pull;
                && record.Some? && answers == []
                && (if pull.OtherPull? || (pull.NoPull? && Rank(at) >= Rank(PullConfirmed)) then s == Some(Failed(PullChanged))
                    else if at.PushConfirmed? && pull.OurPull? then s == Some(Failed(PullConflict))
                    else if at.PullPending? && pull.NoPull? then s == Some(Failed(EffectUnknown))
                    else
                      && s.None? && remote == old(remote).(pull := OurPull)
                      && record.value.stage == if Rank(at) < Rank(PullConfirmed) then PullConfirmed else at)
      ensures Valid() && MayProceed(world)
      ensures s.None? ==> record.Some? && Rank(record.value.stage) >= Rank(PullConfirmed)
      ensures Easy(old(answers), old(record), old(remote)) ==>
                && answers == [] && (s.None? || (GaveUp(s) && record.Some?)) && (s.None? <==> PullTook(old(record), old(remote)))
                && (s.None? ==>
                      && Untouched(record, remote)
                      && (CheckTook(record, remote) <==> CheckTook(old(record), old(remote))))
    {
      hide Follows;
      var found;
      s, found := Pull();
      if s.Some? { return; }
      if record.value.stage.PushConfirmed? {
        if found { return Some(Failed(PullConflict)); }
        s, found := OpenPull();
        if s.Some? { return; }
      }
      if record.value.stage.PullPending? {
        if !found { return Some(Failed(EffectUnknown)); }
        s := Change(PullObserved);
        if s.Some? { return; }
      }
      if !found { return Some(Failed(PullChanged)); }
    }

    /** From the confirmed pull request to the published check. */
    method ThroughCheck() returns (s: Option<Stopped>)
      requires Valid() && MayProceed(world) && record.Some? && Rank(record.value.stage) >= Rank(PullConfirmed)
      modifies this
      ensures Valid() && MayProceed(world) && record.Some?
      ensures s.None? ==> At(world, Complete) && record.value.status.Published?
      ensures old(answers) == [] && old(remote).head.CandidateHead? && old(remote).pull.OurPull? ==>
                var at, check := old(record).value.stage, old(remote).check;
                && answers == []
                && (if check.OtherCheck? || check.MarkedCheck? then s == Some(Failed(CheckChanged))
                    else if at.PullConfirmed? && check.OurCheck? then s == Some(Failed(CheckConflict))
                    else if !at.PullConfirmed? && check.NoCheck? then s == Some(Failed(EffectUnknown))
                    else s.None?)
    {
      hide Follows;
      if record.value.stage.PullConfirmed? {
        s := AddCheck();
        if s.Some? { return; }
      }
      s := Confirm();
    }

    /** The walk through the stages. */
    method Proceed() returns (s: Option<Stopped>)
      requires Valid() && MayProceed(world)
      modifies this
      ensures Valid() && MayProceed(world)
      ensures s.None? ==> At(world, Complete) && record.value.status.Published?
      ensures Easy(old(answers), old(record), old(remote)) ==>
                answers == [] && (s.None? || (GaveUp(s) && record.Some?)) && (s.None? <==> Happened(old(record), old(remote)))
      ensures old(record).Some? && old(answers) == [] ==>
                record.Some? && answers == [] && s != Some(Died) && (Ends(s) <==> HubEnds(old(record).value.stage, old(remote)))
      ensures old(record).Some? && |old(answers)| >= 2 && (old(answers)[0].Fine? || old(answers)[0].Meddled?) && old(answers)[1].Fails? ==>
                s == Some(Failed(old(answers)[1].code)) && record == old(record) && answers == old(answers)[2..]
                && (old(answers)[0].Fine? ==> remote == old(remote))
    {
      hide Follows, RemoteMoved, BasisGone, HubEnds;
      CodesThatEnd();
      s := ThroughPush();
      if old(record).Some? && old(answers) == [] {
        HubHead(old(record).value.stage, old(remote));
      }
      if s.Some? { return; }
      ghost var pushed, hub := record, remote;
      s := ThroughPull();
      if old(record).Some? && old(answers) == [] {
        HubPull(old(record).value.stage, old(remote));
      }
      if s.Some? { return; }
      s := ThroughCheck();
      if old(record).Some? && old(answers) == [] {
        HubCheck(old(record).value.stage, old(remote));
      }
    }

    /** The marking goes out after its intent, on a check seen to be the publication's own. */
    method Mark() returns (s: Option<Stopped>)
      requires Valid() && Invalidated(world) && record.value.checkDocument && record.value.checkKnown
      requires record.value.invalidation.NotInvalidated?
      modifies this
      ensures Valid() && Invalidated(world) && record.value.status == old(record).value.status
      ensures s.None? ==> record.value.invalidation.InvalidationPending? && record.value.checkDocument
      ensures old(answers) == [] ==>
                && s != Some(Died) && answers == []
                && (old(remote).check.OurCheck? ==> s.None? && remote.check.MarkedCheck?)
    {
      hide Follows;
      var found;
      s, found := FindCheck(false);
      if s.Some? { return; }
      if !found { return Some(Failed(CheckChanged)); }
      s := Change(InvalidationIntent);
      if s.Some? { return; }
      s := Send(Effect.InvalidateCheck);
    }

    /** Marking the check of an invalidated publication. */
    method InvalidateCheck() returns (s: Option<Stopped>)
      requires Valid() && Invalidated(world)
      modifies this
      ensures Valid() && Invalidated(world) && record.value.status == old(record).value.status
      ensures s.None? && record.value.checkDocument && record.value.checkKnown ==>
                record.value.invalidation.InvalidationConfirmed?
      ensures old(answers) == [] ==> s != Some(Died)
      ensures old(answers) == [] && Markable(old(record), old(remote)) ==>
                s.None? && remote.check.MarkedCheck? && record.value.invalidation.InvalidationConfirmed?
    {
      hide Follows;
      if record.value.invalidation.InvalidationConfirmed? || !record.value.checkDocument {
        return None;
      }
      var found;
      if !record.value.checkKnown {
        s, found := FindCheck(false);
        if s.Some? || !found { return; }
        s := Change(CheckSeen);
        if s.Some? { return; }
      }
      if record.value.invalidation.NotInvalidated? {
        s := Mark();
        if s.Some? { return; }
      }
      s, found := FindCheck(true);
      if s.Some? { return; }
      if !found { return Some(Failed(EffectUnknown)); }
      s := Change(InvalidationSeen);
    }

    /** A failure ends the publication for good exactly if the remote moved or the basis
        is gone, and blocks it in any case. */
    method Fall(code: Code) returns (s: Option<Stopped>)
      requires Valid() && MayProceed(world) && record.Some?
      modifies this
      ensures Valid() && record.Some?
      ensures s != Some(Died) || old(answers) != []
      ensures s.None? || s.value.Failed? ==>
                record.value.status.Blocked? && (record.value.invalidated <==> RemoteMoved(code) || BasisGone(code))
      ensures record.value.invalidated ==> RemoteMoved(code) || BasisGone(code)
      ensures !(RemoteMoved(code) || BasisGone(code)) ==> Smooth(s)
      ensures old(answers) == [] ==> (record.value.invalidated <==> RemoteMoved(code) || BasisGone(code))
      ensures old(answers) == [] && (RemoteMoved(code) || BasisGone(code)) && Markable(old(record), old(remote)) ==>
                s.None? && remote.check.MarkedCheck? && record.value.invalidation.InvalidationConfirmed?
    {
      hide Follows, IsInvalidating, RemoteMoved, BasisGone;
      EndsExactly(code);
      s := Change(Block(IsInvalidating(code)));
      if s.Some? || !IsInvalidating(code) {
        return;
      }
      s := InvalidateCheck();
    }

    /** One run under the publication lock, from the record as a crash or an earlier
        run left it. A failure of the walk, `failure`, blocks the publication, or ends
        it for good if the remote moved or the basis is gone. With no obstacle in the
        way it publishes if and only if the effect an earlier run may have been cut
        off in did happen; and left alone it ends for good exactly if the hub holds
        what ends it. */
    method Run(script: seq<Answer>) returns (r: Ran, ghost failure: Option<Code>)
      requires Valid()
      modifies this
      ensures Valid() && world.hand.Empty?
      ensures Easy(script, old(record), old(remote)) && MayProceed(old(world)) ==>
                && r.Returned? && !r.record.invalidated
                && (r.record.status.Published? <==> Happened(old(record), old(remote)))
      ensures r.Returned? ==> record == Some(r.record)
      ensures Invalidated(old(world)) ==> Invalidated(world)
      ensures r.Returned? && !r.record.invalidated ==>
                (r.record.status.Published? && r.record.stage.Complete?) || r.record.status.Blocked?
      ensures !Invalidated(old(world)) ==>
                (Invalidated(world) ==> failure.Some? && (RemoteMoved(failure.value) || BasisGone(failure.value)))
      ensures !Invalidated(old(world)) && failure.Some? && record.Some? && !r.Lost? ==>
                && record.value.status.Blocked?
                && (record.value.invalidated <==> RemoteMoved(failure.value) || BasisGone(failure.value))
      ensures old(record).Some? && !old(record).value.invalidated && |script| >= 2
              && (script[0].Fine? || script[0].Meddled?) && script[1].Fails? ==>
                && failure == Some(script[1].code)
                && (script[0].Fine? && |script| == 2 ==>
                      && record.Some? && (record.value.invalidated <==> RemoteMoved(script[1].code) || BasisGone(script[1].code))
                      && (record.value.invalidated && Markable(old(record), old(remote)) ==>
                            r.Returned? && remote.check.MarkedCheck?))
      ensures old(record).Some? && !old(record).value.invalidated && script == [] ==>
                record.Some? && (record.value.invalidated <==> HubEnds(old(record).value.stage, old(remote)))
    {
      hide Follows, RemoteMoved, BasisGone, HubEnds, Untouched, Happened, GaveUp;
      answers, failure := script, None;
      var s: Option<Stopped> := None;
      if record.Some? && record.value.invalidated {
        s := InvalidateCheck();
      } else {
        s := Proceed();
        if GaveUp(s) {
          GaveUpHarmless(s);
        }
        if s.Some? && s.value.Failed? {
          failure := Some(s.value.code);
          if record.Some? {
            s := Fall(s.value.code);
          }
        }
      }
      Happens(Event.Stop);
      if s.None? {
        return Returned(record.value), failure;
      }
      r := if s.value.Died? then Lost else Raised(s.value.code);
    }
  }
}
