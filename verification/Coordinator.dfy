/** The driver of commands: it reserves, records the dispatch before it launches,
    polls until the process ends, and recovers what a crash left behind. */
module Coordinator {
  import opened Results
  import opened Workflow
  import opened X = Execution
  import Laws = WorkflowLaws

  datatype Termination = Finished | Stopped | TimedOut | OverOutput | OverResources

  /** What the runner says of an ended process; `output` stands for the digests and
      sizes of what it printed. */
  datatype Ending = Ending(wellFormed: bool, treeStopped: bool, termination: Termination, exitCode: int, output: Digest)

  /** What is found in the workspace afterwards. */
  datatype Aftermath = Tampered(code: string) | Reports(passed: bool, summary: Digest) | NoReports

  /** The reasons for which a run may be released for repair. */
  predicate IsTestFailure(r: Reason) {
    r == CommandExit || r == ReportsFailedOrEmpty
  }

  /** Why a driver asks its process to stop, or recovery settles it: never a test. */
  type Cause = r: Reason | !IsTestFailure(r) witness NoReason

  /** What a run record tells besides the status: a reason alone, or the whole outcome. */
  datatype Record = Bare(reason: Reason) | Whole(reason: Reason, ending: Ending, verification: Option<Aftermath>)

  /** A verified end by which the process itself, or its reports in an intact workspace,
      tell of a failure. */
  predicate TestsFailed(end: Ending, found: Aftermath) {
    && end.wellFormed && end.treeStopped && end.termination == Finished
    && (end.exitCode != 0 || (found.Reports? && !found.passed))
  }

  /** A record that names a test failure carries such an end. */
  predicate Sincere(n: Record) {
    IsTestFailure(n.reason) ==>
      && n.Whole?
      && TestsFailed(n.ending, if n.verification.Some? then n.verification.value else NoReports)
  }

  type Note = n: Record | Sincere(n) witness Bare(NoReason)

  datatype Launch = Started(identified: bool) | Lost

  /** Another party's doing while a driver waits. */
  datatype Meanwhile = Commits(view: View, action: Action)
                     | Recovers(view: View, run: string, plan: Digest, inspected: Option<Ending>, aftermath: Aftermath)

  datatype Poll =
    | Ended(ending: Ending, cancelled: bool, aftermath: Aftermath)
    | Pending(cancelled: bool, overdue: bool, graceOver: bool)
    | Unobservable

  datatype Look = Look(before: seq<Meanwhile>, view: View, poll: Poll)

  datatype Crash = Survives | BeforeLaunch | AfterLaunch

  datatype Fault = RunMissing | RunCollision | EventCollision | OtherRun | Closed(code: Code) | NotObserved

  /** `Vacant`: the record is known, and the slot holds no run any more. */
  datatype Reported = Returned(execution: Execution) | Vacant | Raised(fault: Fault) | Died

  function TerminationReason(t: Termination): Reason {
    match t
    case Finished => NoReason
    case Stopped => OtherReason("CANCELLED")
    case TimedOut => OtherReason("TIMEOUT")
    case OverOutput => OtherReason("OUTPUT_LIMIT")
    case OverResources => OtherReason("RESOURCE_LIMIT")
  }

  function Prefer(reason: Reason, otherwise: Reason): Reason {
    if reason.NoReason? then otherwise else reason
  }

  /** The status an observed end is recorded with. */
  function Verdict(loss: Option<Code>, end: Ending, reason: Cause, found: Aftermath): (RunStatus, Reason) {
    if loss.Some? then (Stale, Prefer(reason, BasisLost(loss.value)))
    else if !end.termination.Finished? then (Failed, Prefer(reason, TerminationReason(end.termination)))
    else if end.exitCode != 0 then (Failed, CommandExit)
    else
      match found
      case Tampered(code) => (Failed, OtherReason(code))
      case Reports(passed, _) => if passed then (Succeeded, NoReason) else (Failed, ReportsFailedOrEmpty)
      case NoReports => (Succeeded, NoReason)
  }

  /** A run succeeds exactly if its approvals still hold, the process ended by itself
      with code zero, and the workspace is intact with its reports, if any, passed. */
  lemma SucceedsExactly(loss: Option<Code>, end: Ending, reason: Cause, found: Aftermath)
    ensures Verdict(loss, end, reason, found).0.Succeeded? <==>
              && loss.None? && end.termination.Finished? && end.exitCode == 0
              && !found.Tampered? && (found.Reports? ==> found.passed)
    ensures IsTerminal(Verdict(loss, end, reason, found).0)
  {
  }

  /** What an observed end of a run asks to record, if anything. */
  datatype Ruling = Nothing | Told(status: RunStatus, note: Note)

  predicate Verified(end: Ending) {
    end.wellFormed && end.treeStopped
  }

  function Verification(loss: Option<Code>, end: Ending, found: Aftermath): Option<Aftermath> {
    if loss.None? && end.termination.Finished? && end.exitCode == 0 && !found.Tampered? then Some(found) else None
  }

  function Rule(t: Task, v: View, end: Ending, reason: Cause, found: Aftermath): Ruling {
    if !Active(t) then Nothing
    else if Verified(end) then
      var loss := BasisLoss(t, v, t.execution.value);
      var verdict := Verdict(loss, end, reason, found);
      Told(verdict.0, Whole(verdict.1, end, Verification(loss, end, found)))
    else if t.execution.value.status.Uncertain? then Nothing
    else Told(Uncertain, Bare(OtherReason("RUNNER_OUTCOME_UNVERIFIED")))
  }

  /** What a recorded success stands for. */
  predicate Deserved(t: Task, v: View, end: Ending, found: Aftermath) {
    && t.execution.Some? && Laws.RunStands(t, v, t.execution.value)
    && end.wellFormed && end.treeStopped && end.termination.Finished? && end.exitCode == 0
    && !found.Tampered? && (found.Reports? ==> found.passed)
  }

  /** An end of an active run is recorded as succeeded exactly if that is deserved,
      as stale exactly if it is verified and the basis is gone, and as uncertain
      exactly if nobody vouches for it; an uncertain run stays so without a record. */
  lemma RulesExactly(t: Task, v: View, end: Ending, reason: Cause, found: Aftermath)
    requires Active(t)
    ensures var r := Rule(t, v, end, reason, found);
            && (r.Told? && r.status.Succeeded? <==> Deserved(t, v, end, found))
            && (r.Told? && r.status.Stale? <==> Verified(end) && !Laws.RunStands(t, v, t.execution.value))
            && (r.Told? && r.status.Uncertain? <==> !Verified(end) && !t.execution.value.status.Uncertain?)
            && (r.Nothing? <==> !Verified(end) && t.execution.value.status.Uncertain?)
            && (r.Told? ==> (r.status.Uncertain? || IsTerminal(r.status)) && (r.note.Whole? <==> IsTerminal(r.status)))
  {
    hide BasisLoss, Laws.RunStands;
    Laws.RunBasisMeans(t, v, t.execution.value);
    SucceedsExactly(BasisLoss(t, v, t.execution.value), end, reason, found);
    StaleExactly(BasisLoss(t, v, t.execution.value), end, reason, found);
  }

  /** The name of how a process was ended, as it is recorded. */
  function NameOf(t: Termination): string {
    if t == Stopped then "CANCELLED" else if t == TimedOut then "TIMEOUT"
    else if t == OverOutput then "OUTPUT_LIMIT" else if t == OverResources then "RESOURCE_LIMIT" else ""
  }

  /** A run is recorded as failed by its tests exactly if its basis stands and the end
      is one by which they failed: the exit code decides first, and a workspace found
      tampered with is told by its own code. */
  lemma ReasonsExactly(t: Task, v: View, end: Ending, reason: Cause, found: Aftermath)
    requires Active(t)
    ensures var r := Rule(t, v, end, reason, found);
            && (r.Told? && r.status.Failed? && IsTestFailure(r.note.reason) <==>
                  Laws.RunStands(t, v, t.execution.value) && TestsFailed(end, found))
            && (r.Told? && IsTestFailure(r.note.reason) ==> r.status.Failed? && r.note.Whole? && r.note.ending == end)
            && (r.Told? && r.note.Whole? ==>
                  && r.note.ending == end
                  && r.note.verification
                     == if Laws.RunStands(t, v, t.execution.value) && end.termination == Finished && end.exitCode == 0
                           && !found.Tampered? then Some(found) else None)
            && (r.Told? && r.note.reason == CommandExit ==> end.exitCode != 0)
            && (r.Told? && r.note.reason == ReportsFailedOrEmpty ==> end.exitCode == 0 && found.Reports? && !found.passed)
            && (Laws.RunStands(t, v, t.execution.value) && end.wellFormed && end.treeStopped && end.termination == Finished
                && end.exitCode == 0 && found.Tampered? ==>
                  r.Told? && r.status.Failed? && r.note.reason == OtherReason(found.code))
            && (Laws.RunStands(t, v, t.execution.value) && end.wellFormed && end.treeStopped && end.termination != Finished ==>
                  r.Told? && r.status.Failed?
                  && r.note.reason == if reason != NoReason then reason else OtherReason(NameOf(end.termination)))
            && (!Laws.RunStands(t, v, t.execution.value) && end.wellFormed && end.treeStopped ==>
                  && r.Told? && r.status.Stale? && BasisLoss(t, v, t.execution.value).Some?
                  && r.note.reason ==
                     if reason != NoReason then reason else BasisLost(BasisLoss(t, v, t.execution.value).value))
  {
    hide BasisLoss, Laws.RunStands;
    Laws.RunBasisMeans(t, v, t.execution.value);
  }

  lemma StaleExactly(loss: Option<Code>, end: Ending, reason: Cause, found: Aftermath)
    ensures Verdict(loss, end, reason, found).0.Stale? <==> loss.Some?
  {
  }

  /** The entry of the slot once a record is made. */
  function Noted(e: Execution, status: RunStatus, note: Note): Execution {
    e.(status := status, reason := note.reason, stopped := note.Whole?)
  }

  function ReportOf(v: View, run: string, status: RunStatus, note: Note, who: Reporter): Event {
    Report(v, run, status, note.reason, note.Whole?, who)
  }

  /** How a commit of a run record is answered: a status is recorded once, the same
      record again finds the state as it is by now, and another one under the same
      status collides. */
  function Reply(t: Task, told: map<(string, RunStatus), Note>, run: string, status: RunStatus, note: Note): Reported {
    if (run, status) in told then
      if told[(run, status)] != note then Raised(EventCollision)
      else if t.execution.Some? then Returned(t.execution.value) else Vacant
    else if InSlot(t, run) then Returned(Noted(t.execution.value, status, note)) else Raised(OtherRun)
  }

  /** A record is made once: the same one again finds the run as it is by now, another
      one under its status collides, and a new one is made only of the run in the slot,
      whose status and reason it becomes, and which has stopped exactly by an end seen. */
  lemma ReplyMeans(t: Task, told: map<(string, RunStatus), Note>, run: string, status: RunStatus, note: Note)
    ensures var r := Reply(t, told, run, status, note);
            && (r == Raised(EventCollision) <==> (run, status) in told && told[(run, status)] != note)
            && (r == Raised(OtherRun) <==> (run, status) !in told && !InSlot(t, run))
            && ((run, status) in told && told[(run, status)] == note ==>
                  r == if t.execution == None then Vacant else Returned(t.execution.value))
            && ((run, status) !in told && InSlot(t, run) ==>
                  && r.Returned? && r.execution.run == run && r.execution.status == status && r.execution.reason == note.reason
                  && (r.execution.stopped <==> note.Whole?)
                  && r.execution == t.execution.value.(status := status, reason := note.reason, stopped := note.Whole?))
  {
  }

  /** The entry of the slot says what the record of its status says. */
  predicate SlotTold(t: Task, told: map<(string, RunStatus), Note>) {
    t.execution.Some? ==>
      var e := t.execution.value;
      && (e.run, e.status) in told
      && e.reason == told[(e.run, e.status)].reason && e.stopped == told[(e.run, e.status)].Whole?
  }

  /** The run's failure is recorded with a verified end by which its tests failed. */
  predicate FailedByTests(told: map<(string, RunStatus), Note>, run: string) {
    && (run, RunStatus.Failed) in told && told[(run, RunStatus.Failed)].Whole?
    && var n := told[(run, RunStatus.Failed)];
       TestsFailed(n.ending, if n.verification.Some? then n.verification.value else NoReports)
  }

  predicate Enters(t: Task, told: map<(string, RunStatus), Note>, run: string, status: RunStatus) {
    (run, status) !in told && InSlot(t, run)
  }

  ghost predicate Follows(first: View, log: seq<Event>, w: World) {
    LegalLog(first, log) && After(first, log, |log|) == w
  }

  lemma {:induction false} AfterPrefix(first: View, log: seq<Event>, e: Event, n: nat)
    requires n <= |log|
    ensures After(first, log + [e], n) == After(first, log, n)
  {
    hide Step;
    if n > 0 {
      AfterPrefix(first, log, e, n - 1);
    }
  }

  lemma FollowsNext(first: View, log: seq<Event>, w: World, e: Event)
    requires Follows(first, log, w) && Legal(w, e)
    ensures Follows(first, log + [e], Step(w, e))
  {
    hide Step, Legal, After;
    var longer := log + [e];
    forall n | 0 <= n < |longer|
      ensures LegalAt(first, longer, n)
    {
      AfterPrefix(first, log, e, n);
      assert n < |log| ==> LegalAt(first, log, n);
    }
    AfterPrefix(first, log, e, |log|);
    OneAfter(first, longer, |log|);
  }

  lemma OneAfter(first: View, log: seq<Event>, n: nat)
    requires n < |log|
    ensures After(first, log, n + 1) == Step(After(first, log, n), log[n])
  {
    hide Step;
  }

  lemma FollowsOne(first: View, log: seq<Event>, w: World)
    requires Follows(first, log, w)
    ensures OneCommand(w)
  {
    hide After, LegalLog, OneCommand;
    OneActiveCommand(first, log, |log|);
  }

  lemma RecordedFields(w: World, v: View, run: string, status: RunStatus, reason: Reason, stopped: bool)
    requires InSlot(w.task, run)
    ensures var u := Apply(w.task, v, Recording(run, status, reason, stopped));
            && u.Next? && u.task.execution == Some(w.task.execution.value.(status := status, reason := reason, stopped := stopped))
            && Recorded(w, v, run, status, reason, stopped)
               == w.(task := u.task, runs := w.runs[run := u.task.execution.value], recorded := w.recorded + {(run, status)})
  {
    hide Apply;
    RecordingSlot(w.task, v, run, status, reason, stopped);
  }

  lemma ReservedFields(w: World, v: View, run: string, plan: Digest)
    requires Apply(w.task, v, Reserving(run, plan)).Next?
    ensures var u := Apply(w.task, v, Reserving(run, plan)).task;
            && u.execution.Some? && u.execution.value.run == run && u.execution.value.status == RunStatus.Reserved
            && u.execution.value.reason == NoReason && !u.execution.value.stopped
            && Step(w, Event.Reserve(v, run, plan))
               == w.(task := u, runs := w.runs[run := u.execution.value], recorded := w.recorded + {(run, RunStatus.Reserved)})
  {
    hide Apply;
    ReservingSlot(w.task, v, run, plan);
  }

  lemma LegalReserve(w: World, v: View, run: string, plan: Digest)
    requires w.lock.Free? && run !in w.runs && Apply(w.task, v, Reserving(run, plan)).Next?
    ensures Legal(w, Event.Reserve(v, run, plan))
  {
    hide Apply;
  }

  /** The end of an active run may be recorded by its driver or in recovery. */
  lemma MayFinish(w: World, e: Event)
    requires e.Report? && w.lock.Free? && InSlot(w.task, e.run) && Active(w.task)
    requires (e.who.Driver? && e.run in w.drivers) || (e.who.Recovery? && !w.task.execution.value.status.Reserved?)
    requires e.status.Uncertain? || IsTerminal(e.status)
    requires e.status.Succeeded? ==> BasisLoss(w.task, e.view, w.task.execution.value).None?
    ensures MayReport(w, e)
  {
  }

  lemma FollowsUntold(first: View, log: seq<Event>, w: World)
    requires Follows(first, log, w)
    ensures Untold(w)
  {
    hide After, LegalLog, Untold;
    UntoldAlways(first, log, |log|);
  }

  lemma FollowsNothingLate(first: View, log: seq<Event>, w: World)
    requires Follows(first, log, w)
    ensures NothingLate(w)
  {
    hide After, LegalLog, NothingLate;
    NothingLateAlways(first, log, |log|);
  }

  /** Nothing was launched since. */
  predicate NoLaunch(before: seq<Event>, after: seq<Event>) {
    before <= after && forall n :: |before| <= n < |after| ==> !after[n].CallRunner?
  }

  lemma NoLaunchYet(log: seq<Event>)
    ensures NoLaunch(log, log)
  {
  }

  lemma NoLaunchMore(before: seq<Event>, after: seq<Event>, e: Event)
    requires NoLaunch(before, after) && !e.CallRunner?
    ensures NoLaunch(before, after + [e])
  {
  }

  /** The driver launched its run once, right after recording the dispatch. */
  predicate LaunchedOnce(before: seq<Event>, after: seq<Event>, run: string) {
    var k := |before|;
    && k + 1 < |after| && before <= after
    && after[k].Dispatch? && after[k].run == run && after[k + 1] == CallRunner(run)
    && forall n :: k + 1 < n < |after| ==> !after[n].CallRunner?
  }

  lemma LaunchedOnceIf(before: seq<Event>, v: View, run: string, after: seq<Event>)
    requires NoLaunch(before + [Event.Dispatch(v, run)] + [CallRunner(run)], after)
    ensures LaunchedOnce(before, after, run)
  {
    var launched := before + [Event.Dispatch(v, run)] + [CallRunner(run)];
    assert launched <= after;
    assert after[|before|] == launched[|before|] && after[|before| + 1] == launched[|before| + 1];
  }

  /** Only others were at work: commits of other engines and recoveries. */
  predicate Bystanders(before: seq<Event>, after: seq<Event>) {
    before <= after && forall n :: |before| <= n < |after| ==> after[n].Other? || (after[n].Report? && after[n].who.Recovery?)
  }

  lemma BystandersNone(log: seq<Event>)
    ensures Bystanders(log, log)
  {
  }

  lemma BystandersMore(before: seq<Event>, after: seq<Event>, e: Event)
    requires Bystanders(before, after) && (e.Other? || (e.Report? && e.who.Recovery?))
    ensures Bystanders(before, after + [e])
  {
  }

  lemma BystandersTwice(before: seq<Event>, between: seq<Event>, after: seq<Event>)
    requires Bystanders(before, between) && Bystanders(between, after)
    ensures Bystanders(before, after)
  {
  }

  lemma {:induction false} AfterLonger(first: View, shorter: seq<Event>, longer: seq<Event>, n: nat)
    requires shorter <= longer && n <= |shorter|
    ensures After(first, longer, n) == After(first, shorter, n)
  {
    hide Step;
    if n > 0 {
      AfterLonger(first, shorter, longer, n - 1);
    }
  }

  /** The end of a process as a driver takes it: completion after its caller's
      cancellation counts as a stop. */
  function AsSeen(ending: Ending, cancelled: bool): Ending {
    if cancelled && ending.termination.Finished? then ending.(termination := Stopped) else ending
  }

  /** What a driver records for the look that ends its watch. */
  function Closing(t: Task, run: string, look: Look, why: Cause): Ruling {
    if !InSlot(t, run) then Nothing else
    match look.poll
    case Ended(ending, cancelled, aftermath) => Rule(t, look.view, AsSeen(ending, cancelled), why, aftermath)
    case Pending(_, _, _) => Told(Uncertain, Bare(OtherReason("TERMINATION_UNCONFIRMED")))
    case Unobservable =>
      if Active(t) && !t.execution.value.status.Uncertain? then Told(Uncertain, Bare(OtherReason("PROCESS_OBSERVATION_FAILED")))
      else Nothing
  }

  /** A driver records an ended status only of a process that it saw end, with its whole
      tree stopped; one that outlives its grace or cannot be seen leaves the run
      uncertain, and another run's slot is left alone. */
  lemma ClosingMeans(t: Task, run: string, look: Look, why: Cause)
    ensures var r := Closing(t, run, look, why);
            && (r.Told? && r.status != Uncertain ==>
                  look.poll.Ended? && look.poll.ending.wellFormed && look.poll.ending.treeStopped && Active(t))
            && (r.Told? && r.status == Succeeded ==> !look.poll.cancelled)
            && (!InSlot(t, run) ==> r == Nothing)
            && (InSlot(t, run) && look.poll.Ended? && (!look.poll.cancelled || look.poll.ending.termination != Finished) ==>
                  r == Rule(t, look.view, look.poll.ending, why, look.poll.aftermath))
            && (InSlot(t, run) && look.poll.Pending? ==>
                  r == Told(Uncertain, Bare(OtherReason("TERMINATION_UNCONFIRMED"))))
            && (InSlot(t, run) && look.poll.Unobservable? ==>
                  r == if t.execution.value.status in {Reserved, Dispatching, RunStatus.Running}
                       then Told(Uncertain, Bare(OtherReason("PROCESS_OBSERVATION_FAILED"))) else Nothing)
            && (InSlot(t, run) && Active(t) && Laws.RunStands(t, look.view, t.execution.value) && look.poll.Ended?
                && look.poll.cancelled && look.poll.ending.wellFormed && look.poll.ending.treeStopped
                && look.poll.ending.termination == Finished ==>
                  r.Told? && r.status == RunStatus.Failed && r.note.reason == if why != NoReason then why else OtherReason("CANCELLED"))
  {
    hide BasisLoss, Laws.RunStands, Rule;
    if look.poll.Ended? && Active(t) {
      var end := AsSeen(look.poll.ending, look.poll.cancelled);
      RulesExactly(t, look.view, end, why, look.poll.aftermath);
      ReasonsExactly(t, look.view, end, why, look.poll.aftermath);
    }
    if !Active(t) && look.poll.Ended? {
      NoRule(t, look.view, AsSeen(look.poll.ending, look.poll.cancelled), why, look.poll.aftermath);
    }
  }

  lemma NoRule(t: Task, v: View, end: Ending, reason: Cause, found: Aftermath)
    requires !Active(t)
    ensures Rule(t, v, end, reason, found) == Nothing
  {
  }

  function Watcher(look: Look): Reporter {
    if look.poll.Pending? then Grace else Driver
  }

  /** The one event by which a driver leaves its run. */
  function Parting(w: World, run: string, look: Look, why: Cause): Event {
    match Closing(w.task, run, look, why)
    case Told(status, note) => if (run, status) in w.recorded then Leave(run) else ReportOf(look.view, run, status, note, Watcher(look))
    case Nothing => Leave(run)
  }

  /** A driver leaves with the record its last look calls for, unless that is made
      already or none is called for; only a driver whose grace ran out reports so. */
  lemma PartingMeans(w: World, run: string, look: Look, why: Cause)
    ensures var e, closing := Parting(w, run, look, why), Closing(w.task, run, look, why);
            && (closing.Told? && (run, closing.status) !in w.recorded ==>
                  && e.Report? && e.run == run && e.view == look.view && e.status == closing.status
                  && e.reason == closing.note.reason && (e.stopped <==> closing.note.Whole?)
                  && e.who == if look.poll.Pending? then Grace else Driver)
            && (closing.Told? && (run, closing.status) in w.recorded ==> e == Leave(run))
            && (closing == Nothing ==> e == Leave(run))
  {
    hide Closing;
  }

  /** A driver's success is an uncancelled end that deserves it. */
  predicate Achieved(t: Task, look: Look) {
    && look.poll.Ended? && !look.poll.cancelled
    && Deserved(t, look.view, look.poll.ending, look.poll.aftermath)
  }

  lemma PartingEarned(w: World, run: string, look: Look, why: Cause)
    ensures var e := Parting(w, run, look, why); e.Report? && e.status.Succeeded? ==> Achieved(w.task, look)
  {
    hide BasisLoss, Active, Verdict;
    if InSlot(w.task, run) && look.poll.Ended? && Active(w.task) {
      RulesExactly(w.task, look.view, AsSeen(look.poll.ending, look.poll.cancelled), why, look.poll.aftermath);
    }
  }

  /** The driver's own successes since: each one achieved by a look of its. */
  ghost predicate AllAchieved(first: View, before: seq<Event>, after: seq<Event>, looks: seq<Look>) {
    forall n :: |before| <= n < |after| && after[n].Report? && after[n].who.Driver? && after[n].status.Succeeded? ==>
      AchievedAt(first, after, n, looks)
  }

  ghost predicate AchievedAt(first: View, log: seq<Event>, n: nat, looks: seq<Look>)
    requires n < |log|
  {
    exists i :: 0 <= i < |looks| && Achieved(After(first, log, n).task, looks[i])
  }

  lemma NoneAchieved(first: View, before: seq<Event>, after: seq<Event>, looks: seq<Look>)
    requires forall n :: |before| <= n < |after| ==> !(after[n].Report? && after[n].who.Driver?)
    ensures AllAchieved(first, before, after, looks)
  {
  }

  /** Others' events and the driver's parting hold no undeserved success of its. */
  lemma PartingAchieved(first: View, before: seq<Event>, seen: seq<Event>, looks: seq<Look>, at: nat, run: string, why: Cause)
    requires Bystanders(before, seen) && at < |looks|
    ensures AllAchieved(first, before, seen + [Parting(After(first, seen, |seen|), run, looks[at], why)], looks)
  {
    hide After, Achieved, Parting;
    var parting := Parting(After(first, seen, |seen|), run, looks[at], why);
    var after := seen + [parting];
    forall n | |before| <= n < |after| && after[n].Report? && after[n].who.Driver? && after[n].status.Succeeded?
      ensures AchievedAt(first, after, n, looks)
    {
      assert !(n < |seen|);
      AfterLonger(first, seen, after, n);
      PartingEarned(After(first, seen, |seen|), run, looks[at], why);
    }
  }

  lemma AchievedLater(first: View, before: seq<Event>, between: seq<Event>, after: seq<Event>, looks: seq<Look>)
    requires before <= between <= after && AllAchieved(first, between, after, looks)
    requires forall n :: |before| <= n < |between| ==> !(between[n].Report? && between[n].who.Driver?)
    ensures AllAchieved(first, before, after, looks)
  {
    hide AchievedAt;
    assert forall n :: |before| <= n < |between| ==> after[n] == between[n];
  }

  // ---- Why a driver asks its process to stop ----

  /** The loss of the basis that a look found. */
  ghost predicate LostAt(first: View, log: seq<Event>, n: nat, look: Look, previous: Execution, code: Code)
    requires n <= |log|
  {
    look.poll.Pending? && BasisLoss(After(first, log, n).task, look.view, previous) == Some(code)
  }

  predicate CancelledAt(look: Look) {
    look.poll.Pending? && look.poll.cancelled
  }

  predicate OverdueAt(look: Look) {
    look.poll.Pending? && look.poll.overdue
  }

  ghost predicate LostBefore(first: View, seen: seq<Event>, looks: seq<Look>, at: nat, previous: Execution, code: Code)
    requires at <= |looks|
  {
    exists k, n :: 0 <= k < at && 0 <= n <= |seen| && LostAt(first, seen, n, looks[k], previous, code)
  }

  /** The reason a driver holds after so many looks: none if no look asked for a
      stop, and otherwise one that some look gave. */
  ghost predicate Reasoned(first: View, seen: seq<Event>, looks: seq<Look>, at: nat, previous: Execution, why: Cause)
    requires at <= |looks|
  {
    match why
    case NoReason => forall k :: 0 <= k < at ==> !CancelledAt(looks[k]) && !OverdueAt(looks[k])
    case BasisLost(code) => LostBefore(first, seen, looks, at, previous, code)
    case OtherReason(code) =>
      || (code == "RUN_CANCELLED" && exists k :: 0 <= k < at && CancelledAt(looks[k]))
      || (code == "TIMEOUT" && exists k :: 0 <= k < at && OverdueAt(looks[k]))
    case _ => false
  }

  lemma ReasonedLater(first: View, seen: seq<Event>, later: seq<Event>, looks: seq<Look>, at: nat, previous: Execution, why: Cause)
    requires at < |looks| && seen <= later && Reasoned(first, seen, looks, at, previous, why)
    requires why.NoReason? ==> !CancelledAt(looks[at]) && !OverdueAt(looks[at])
    ensures Reasoned(first, later, looks, at + 1, previous, why)
  {
    hide After, BasisLoss;
    if why.BasisLost? {
      var k, n :| 0 <= k < at && 0 <= n <= |seen| && LostAt(first, seen, n, looks[k], previous, why.loss);
      AfterLonger(first, seen, later, n);
      assert LostAt(first, later, n, looks[k], previous, why.loss);
    }
  }

  lemma ReasonedKept(first: View, seen: seq<Event>, later: seq<Event>, looks: seq<Look>, at: nat, previous: Execution, why: Cause)
    requires at <= |looks| && seen <= later && Reasoned(first, seen, looks, at, previous, why)
    ensures Reasoned(first, later, looks, at, previous, why)
  {
    hide After, BasisLoss;
    if why.BasisLost? {
      var k, n :| 0 <= k < at && 0 <= n <= |seen| && LostAt(first, seen, n, looks[k], previous, why.loss);
      AfterLonger(first, seen, later, n);
      assert LostAt(first, later, n, looks[k], previous, why.loss);
    }
  }

  /** A look at a driver that holds no reason yet gives it one, or none. */
  lemma ReasonedNow(first: View, seen: seq<Event>, looks: seq<Look>, at: nat, previous: Execution, why: Cause)
    requires at < |looks| && Reasoned(first, seen, looks, at, previous, NoReason)
    requires match why
             case NoReason => !CancelledAt(looks[at]) && !OverdueAt(looks[at])
             case BasisLost(code) => LostAt(first, seen, |seen|, looks[at], previous, code)
             case OtherReason(code) => (code == "RUN_CANCELLED" && CancelledAt(looks[at])) || (code == "TIMEOUT" && OverdueAt(looks[at]))
             case _ => false
    ensures Reasoned(first, seen, looks, at + 1, previous, why)
  {
    hide LostAt;
  }

  // ---- Recovery and dispatch ----

  /** What recovery comes to for an active run: without an answer of the runner the
      run is uncertain, and with one the end is settled as its rule says. */
  predicate Recovered(t: Task, told: map<(string, RunStatus), Note>, before: seq<Event>, v: View, run: string,
                      inspected: Option<Ending>, found: Aftermath, r: Reported, after: seq<Event>) {
    && InSlot(t, run) && Active(t)
    && match inspected
       case None =>
         var note := Bare(OtherReason("RECOVERY_REQUIRES_INSPECTION"));
         if t.execution.value.status.Uncertain? then r == Returned(t.execution.value) && after == before
         else r == Returned(Noted(t.execution.value, Uncertain, note)) && after == before + [ReportOf(v, run, Uncertain, note, Recovery)]
       case Some(end) =>
         match Rule(t, v, end, NoReason, found)
         case Nothing => r == Returned(t.execution.value) && after == before
         case Told(status, note) =>
           && r == Reply(t, told, run, status, note)
           && after == if (run, status) in told then before else before + [ReportOf(v, run, status, note, Recovery)]
  }

  /** Why a reserved run is not dispatched. */
  function DispatchRefusal(cancelled: bool, loss: Option<Code>, preflight: Option<string>): Option<Cause> {
    if cancelled then Some(OtherReason("RUN_CANCELLED"))
    else if loss.Some? then Some(BasisLost(loss.value))
    else if preflight.Some? then Some(OtherReason(preflight.value))
    else None
  }

  /** A reserved run is dispatched exactly if nobody cancelled it, its basis stands, and
      runtime, workspace and reports are as planned; the first of these that fails is the
      reason it failed with. */
  lemma DispatchMeans(t: Task, v: View, e: Execution, cancelled: bool, preflight: Option<string>)
    ensures var refusal := DispatchRefusal(cancelled, BasisLoss(t, v, e), preflight);
            && (refusal == None <==> !cancelled && Laws.RunStands(t, v, e) && preflight == None)
            && (cancelled ==> refusal == Some(OtherReason("RUN_CANCELLED")))
            && (!cancelled && !Laws.RunStands(t, v, e) ==>
                  BasisLoss(t, v, e).Some? && refusal == Some(BasisLost(BasisLoss(t, v, e).value)))
            && (!cancelled && Laws.RunStands(t, v, e) && preflight.Some? ==> refusal == Some(OtherReason(preflight.value)))
  {
    hide BasisLoss, Laws.RunStands;
    Laws.RunBasisMeans(t, v, e);
  }

  function LaunchReport(v: View, run: string, launch: Launch): Event {
    if launch == Started(true) then ReportOf(v, run, Running, Bare(NoReason), Launcher)
    else ReportOf(v, run, Uncertain, Bare(OtherReason("LAUNCH_OUTCOME_UNKNOWN")), Launcher)
  }

  /** What follows a recorded dispatch: the launch, and what it came to, recorded
      before anything else; a lost answer leaves the run uncertain and unwatched. */
  predicate LaunchTold(before: seq<Event>, after: seq<Event>, v: View, run: string, crash: Crash, launch: Launch, e: Execution,
                       r: Reported) {
    match crash
    case BeforeLaunch => r.Died? && after == before + [Event.Crash]
    case AfterLaunch => r.Died? && after == before + [CallRunner(run), Event.Crash]
    case Survives =>
      && before + [CallRunner(run), LaunchReport(v, run, launch)] <= after
      && (launch != Started(true) ==>
            && after == before + [CallRunner(run), LaunchReport(v, run, launch)]
            && r == Returned(Noted(e, Uncertain, Bare(OtherReason("LAUNCH_OUTCOME_UNKNOWN")))))
  }

  /** A report by which the driver parts is what it returns. */
  predicate PartingTold(t: Task, e: Event, r: Reported) {
    e.Report? ==>
      && t.execution.Some?
      && r == Returned(t.execution.value.(status := e.status, reason := e.reason, stopped := e.stopped))
  }

  lemma PartingQuiet(w: World, run: string, look: Look, why: Cause)
    ensures !Parting(w, run, look, why).CallRunner?
  {
    hide Closing;
  }

  lemma NotReasoned(first: View, log: seq<Event>, looks: seq<Look>, previous: Execution)
    ensures Reasoned(first, log, looks, 0, previous, NoReason)
  {
  }

  lemma BystandersLonger(before: seq<Event>, after: seq<Event>)
    requires Bystanders(before, after)
    ensures before <= after
  {
  }

  lemma BystandersQuiet(first: View, before: seq<Event>, after: seq<Event>, looks: seq<Look>)
    requires Bystanders(before, after)
    ensures NoLaunch(before, after) && AllAchieved(first, before, after, looks)
  {
  }

  lemma CrashAchieved(first: View, before: seq<Event>, seen: seq<Event>, looks: seq<Look>)
    requires Bystanders(before, seen)
    ensures AllAchieved(first, before, seen + [Event.Crash], looks)
  {
    hide AchievedAt;
  }

  lemma RefusedQuiet(first: View, before: seq<Event>, e: Event, looks: seq<Look>)
    requires e.Report? && !e.who.Driver?
    ensures NoLaunch(before, before + [e]) && AllAchieved(first, before, before + [e], looks)
  {
    hide AchievedAt;
  }

  /** A watch adds to the launch only others' events and one that is no launch. */
  lemma WatchedTrace(called: seq<Event>, known: seq<Event>, seen: seq<Event>, after: seq<Event>)
    requires NoLaunch(called, known) && Bystanders(known, seen)
    requires |after| == |seen| + 1 && seen <= after && !after[|seen|].CallRunner?
    ensures NoLaunch(called, after) && known <= after
  {
    assert after == seen + [after[|seen|]];
    forall n | |called| <= n < |after|
      ensures !after[n].CallRunner?
    {
      if n < |seen| {
        assert after[n] == seen[n];
        assert n < |known| ==> seen[n] == known[n];
      }
    }
  }

  lemma LaunchedTrace(first: View, before: seq<Event>, v: View, run: string, crash: Crash, after: seq<Event>, looks: seq<Look>)
    requires var dispatched := before + [Event.Dispatch(v, run)];
             && (if crash.BeforeLaunch? then after == dispatched + [Event.Crash] else NoLaunch(dispatched + [CallRunner(run)], after))
             && AllAchieved(first, dispatched, after, looks)
    ensures if crash.BeforeLaunch? then NoLaunch(before, after) else LaunchedOnce(before, after, run)
    ensures AllAchieved(first, before, after, looks)
  {
    hide NoLaunch, LaunchedOnce, AllAchieved;
    var dispatched := before + [Event.Dispatch(v, run)];
    if crash.BeforeLaunch? {
      NoLaunchYet(before);
      NoLaunchMore(before, before, Event.Dispatch(v, run));
      NoLaunchMore(before, dispatched, Event.Crash);
    } else {
      LaunchedOnceIf(before, v, run, after);
      LongerThan(dispatched + [CallRunner(run)], after);
    }
    AchievedLater(first, before, dispatched, after, looks);
  }

  lemma LongerThan(before: seq<Event>, after: seq<Event>)
    requires NoLaunch(before, after)
    ensures before <= after
  {
  }

  lemma LaunchToldSame(before: seq<Event>, after: seq<Event>, v: View, run: string, crash: Crash, launch: Launch, e: Execution,
                       r: Reported)
    requires LaunchTold(before, after, v, run, crash, launch, Noted(e, Dispatching, Bare(NoReason)), r)
    ensures LaunchTold(before, after, v, run, crash, launch, e, r)
  {
    hide LaunchReport;
  }

  /** What the look that ends a watch comes to, before the driver leaves. */
  predicate Parted(before: seq<Event>, w: World, run: string, look: Look, why: Cause, r: Reported, after: seq<Event>, next: World) {
    var e := Parting(w, run, look, why);
    && (if e.Leave? then after == before && next == w else after == before + [e] && run !in next.drivers && InSlot(w.task, run))
    && PartingTold(w.task, e, r)
    && (InSlot(w.task, run) && look.poll.Ended? && !Active(w.task) ==> r == Returned(w.task.execution.value))
    && (InSlot(w.task, run) && look.poll.Unobservable? && e.Leave? ==> r == Raised(NotObserved))
    && !r.Died?
  }

  lemma ActiveEarly(t: Task)
    ensures Active(t) && !t.execution.value.status.Uncertain? ==> IsEarly(t.execution.value.status)
  {
  }

  class ExecutionCoordinator {
    var task: Task
    var runs: map<string, Execution>
    var told: map<(string, RunStatus), Note>
    ghost const first: View
    ghost var world: World
    ghost var log: seq<Event>

    ghost predicate Valid()
      reads this
    {
      && Follows(first, log, world)
      && world.task == task && world.runs == runs && world.recorded == told.Keys && SlotTold(task, told)
    }

    /** Over a captured task. */
    constructor (v: View)
      ensures Valid() && first == v && task == Fresh(v) && runs == map[] && log == [] && world.lock.Free?
    {
      task, runs, told := Fresh(v), map[], map[];
      first, world, log := v, X.Begin(v), [];
      new;
      hide Fresh, Step;
      NoCommand(v);
      Nothing(v);
    }

    lemma Nothing(v: View)
      ensures Follows(v, [], X.Begin(v))
    {
      hide Fresh;
    }

    ghost method Observe(e: Event)
      requires Valid() && Legal(world, e) && (e.CallRunner? || e.Leave? || e.Crash?)
      modifies this`world, this`log
      ensures Valid() && world == Step(old(world), e) && log == old(log) + [e]
    {
      hide Follows, Legal;
      FollowsNext(first, log, world, e);
      world := Step(world, e);
      log := log + [e];
    }

    /** A run is released only after a recorded failure of its tests. */
    static lemma ReleasedFailed(t: Task, told: map<(string, RunStatus), Note>, v: View, run: string)
      requires Apply(t, v, Repairing(run)).Next? && SlotTold(t, told)
      ensures FailedByTests(told, run)
    {
      hide Settle, StateRefusal, BasisRefusal;
    }

    /** Any other engine's commit; a release for repair only after such a failure. */
    method Tell(v: View, a: Action) returns (refusal: Option<Code>)
      requires Valid() && world.lock.Free?
      modifies this
      ensures Valid() && world.lock.Free? && world.drivers == old(world.drivers) && runs == old(runs)
      ensures refusal.None? <==> !a.Reserving? && !a.Recording? && Apply(old(task), v, a).Next?
      ensures refusal.None? ==> Next(task) == Apply(old(task), v, a) && log == old(log) + [Other(v, a)]
      ensures refusal.Some? ==> task == old(task) && log == old(log)
      ensures refusal.None? && a.Repairing? ==> FailedByTests(told, a.run) && told == old(told)
    {
      hide Follows, Apply;
      if a.Reserving? || a.Recording? {
        return Some(RunConflict);
      }
      var outcome := Apply(task, v, a);
      if outcome.Refuse? {
        return Some(outcome.code);
      }
      OtherKeepsSlot(task, v, a);
      if a.Repairing? {
        ReleasedFailed(task, told, v, a.run);
      }
      FollowsNext(first, log, world, Other(v, a));
      world := Step(world, Other(v, a));
      log := log + [Other(v, a)];
      task := outcome.task;
      refusal := None;
    }

    /** A run identity is reserved once; asking again returns its last record. */
    method Reserve(v: View, run: string, plan: Digest) returns (r: Reported)
      requires Valid() && world.lock.Free?
      modifies this
      ensures Valid() && world.lock.Free?
      ensures run in old(runs) ==>
                log == old(log) && r == if old(runs)[run].plan == plan then Returned(old(runs)[run]) else Raised(RunCollision)
      ensures run !in old(runs) ==>
                match Apply(old(task), v, Reserving(run, plan))
                case Refuse(code) => r == Raised(Closed(code)) && log == old(log)
                case Next(u) =>
                  && task == u && u.execution.Some? && r == Returned(u.execution.value)
                  && log == old(log) + [Event.Reserve(v, run, plan)]
    {
      hide Follows, Apply, Step, Legal;
      if run in runs {
        return if runs[run].plan == plan then Returned(runs[run]) else Raised(RunCollision);
      }
      var outcome := Apply(task, v, Reserving(run, plan));
      if outcome.Refuse? {
        return Raised(Closed(outcome.code));
      }
      r := Enter(v, run, plan, outcome.task);
    }

    method Enter(v: View, run: string, plan: Digest, next: Task) returns (r: Reported)
      requires Valid() && world.lock.Free? && run !in runs && Apply(task, v, Reserving(run, plan)) == Next(next)
      modifies this
      ensures Valid() && world.lock.Free? && task == next && log == old(log) + [Event.Reserve(v, run, plan)]
      ensures next.execution.Some? && r == Returned(next.execution.value)
    {
      hide Follows, Apply, Step, Legal;
      ghost var e := Event.Reserve(v, run, plan);
      ReservedFields(world, v, run, plan);
      LegalReserve(world, v, run, plan);
      FollowsNext(first, log, world, e);
      var entry := next.execution.value;
      world, log := Step(world, e), log + [e];
      task, runs, told := next, runs[run := entry], told[(run, RunStatus.Reserved) := Bare(NoReason)];
      r := Returned(entry);
    }

    /** One run record: the same run event is committed once. */
    method Commit(v: View, run: string, status: RunStatus, note: Note, ghost who: Reporter) returns (r: Reported)
      requires Valid() && !status.Dispatching?
      requires Enters(task, told, run, status) ==> MayReport(world, ReportOf(v, run, status, note, who))
      modifies this
      ensures Valid() && r == Reply(old(task), old(told), run, status, note)
      ensures Enters(old(task), old(told), run, status) ==>
                && log == old(log) + [ReportOf(v, run, status, note, who)]
                && world == Step(old(world), ReportOf(v, run, status, note, who))
                && told == old(told)[(run, status) := note]
      ensures !Enters(old(task), old(told), run, status) ==>
                log == old(log) && world == old(world) && told == old(told) && task == old(task)
    {
      hide Follows, Apply, MayReport, Active;
      if (run, status) in told {
        if told[(run, status)] != note {
          return Raised(EventCollision);
        }
        return if task.execution.Some? then Returned(task.execution.value) else Vacant;
      }
      if !InSlot(task, run) {
        return Raised(OtherRun);
      }
      ghost var e := ReportOf(v, run, status, note, who);
      RecordedFields(world, v, run, status, note.reason, note.Whole?);
      FollowsNext(first, log, world, e);
      world := Step(world, e);
      log := log + [e];
      task := Apply(task, v, Recording(run, status, note.reason, note.Whole?)).task;
      runs := runs[run := task.execution.value];
      told := told[(run, status) := note];
      r := Returned(task.execution.value);
    }

    /** The dispatch is recorded before anything is launched. */
    method RecordDispatch(v: View, run: string)
      requires Valid() && Legal(world, Event.Dispatch(v, run))
      modifies this
      ensures Valid() && log == old(log) + [Event.Dispatch(v, run)] && world == Step(old(world), Event.Dispatch(v, run))
      ensures world.lock == Armed(run) && InSlot(task, run)
      ensures task.execution.value == Noted(old(task).execution.value, Dispatching, Bare(NoReason))
    {
      hide Follows, Apply, BasisLoss;
      ghost var e := Event.Dispatch(v, run);
      RecordedFields(world, v, run, Dispatching, NoReason, false);
      FollowsNext(first, log, world, e);
      world := Step(world, e);
      log := log + [e];
      task := Apply(task, v, Recording(run, Dispatching, NoReason, false)).task;
      runs := runs[run := task.execution.value];
      told := told[(run, Dispatching) := Bare(NoReason)];
    }

    /** Of a run that is neither uncertain nor ended, nothing of the kind is told. */
    lemma EarlyUntold(run: string)
      requires Valid() && InSlot(task, run) && IsEarly(task.execution.value.status)
      ensures forall s: RunStatus :: (run, s) in told ==> IsEarly(s)
    {
      hide Follows;
      FollowsNothingLate(first, log, world);
    }

    /** An observed end is settled, unless the run has ended meanwhile. */
    method Finish(v: View, run: string, end: Ending, reason: Cause, found: Aftermath, ghost who: Reporter) returns (r: Reported)
      requires Valid() && world.lock.Free?
      requires who.Driver? || who.Recovery?
      requires who.Driver? ==> run in world.drivers
      requires who.Recovery? && InSlot(task, run) && Active(task) ==> !task.execution.value.status.Reserved?
      modifies this
      ensures Valid() && world.lock.Free? && (who.Recovery? ==> world.drivers == old(world.drivers))
      ensures who.Driver? && log != old(log) ==> run !in world.drivers
      ensures log == old(log) ==> world == old(world)
      ensures !InSlot(old(task), run) ==> r == Raised(OtherRun) && log == old(log) && task == old(task)
      ensures InSlot(old(task), run) ==>
                match Rule(old(task), v, end, reason, found)
                case Nothing => r == Returned(old(task).execution.value) && log == old(log) && task == old(task)
                case Told(status, note) =>
                  && r == Reply(old(task), old(told), run, status, note)
                  && log == (if (run, status) in old(told) then old(log) else old(log) + [ReportOf(v, run, status, note, who)])
                  && ((run, status) in old(told) ==> task == old(task))
      ensures r.Returned? && r.execution.status.Succeeded? && log != old(log) ==> Deserved(old(task), v, end, found)
      ensures InSlot(old(task), run) && Active(old(task)) && !Verified(end) ==> r.Returned? && r.execution.status.Uncertain?
      ensures r.Returned? && log != old(log) ==>
                && (r.execution.status.Failed? && IsTestFailure(r.execution.reason) <==>
                      Laws.RunStands(old(task), v, old(task).execution.value) && TestsFailed(end, found))
                && (end.wellFormed && end.treeStopped && end.termination == Finished && end.exitCode == 0 && found.Tampered?
                    && Laws.RunStands(old(task), v, old(task).execution.value) ==>
                      r.execution.status.Failed? && r.execution.reason == OtherReason(found.code))
    {
      hide Follows, Apply, BasisLoss, Verdict, Active, MayReport, Step, Laws.RunStands, TestsFailed;
      if !InSlot(task, run) {
        return Raised(OtherRun);
      }
      var e := task.execution.value;
      if !Active(task) {
        return Returned(e);
      }
      RulesExactly(task, v, end, reason, found);
      ReasonsExactly(task, v, end, reason, found);
      Laws.RunBasisMeans(task, v, e);
      ActiveEarly(task);
      if IsEarly(e.status) {
        EarlyUntold(run);
      }
      var status, note: Note := Uncertain, Bare(OtherReason("RUNNER_OUTCOME_UNVERIFIED"));
      if end.wellFormed && end.treeStopped {
        var loss := BasisLoss(task, v, e);
        var verdict := Verdict(loss, end, reason, found);
        status, note := verdict.0, Whole(verdict.1, end, Verification(loss, end, found));
      } else if e.status.Uncertain? {
        return Returned(e);
      }
      MayFinish(world, ReportOf(v, run, status, note, who));
      LockFreed(world, ReportOf(v, run, status, note, who));
      r := Commit(v, run, status, note, who);
    }

    lemma LockFreed(w: World, e: Event)
      requires e.Report?
      ensures Step(w, e).lock.Free?
      ensures e.who.Recovery? ==> Step(w, e).drivers == w.drivers
      ensures e.who.Driver? || e.who.Grace? ==> Step(w, e).drivers == w.drivers - {e.run}
      ensures e.who.Launcher? && e.status.Running? && InSlot(w.task, e.run) ==> e.run in Step(w, e).drivers
      ensures InSlot(w.task, e.run) ==>
                InSlot(Step(w, e).task, e.run)
                && Step(w, e).task.execution.value
                   == w.task.execution.value.(status := e.status, reason := e.reason, stopped := e.stopped)
    {
      hide Apply;
      if InSlot(w.task, e.run) {
        RecordingSlot(w.task, e.view, e.run, e.status, e.reason, e.stopped);
      }
    }

    /** The runner cannot be asked about the run. */
    method Unanswered(v: View, run: string) returns (r: Reported)
      requires Valid() && world.lock.Free? && InSlot(task, run)
      requires task.execution.value.status.Dispatching? || task.execution.value.status.Running?
      modifies this
      ensures Valid() && world.lock.Free? && world.drivers == old(world.drivers)
      ensures r == Returned(Noted(old(task).execution.value, Uncertain, Bare(OtherReason("RECOVERY_REQUIRES_INSPECTION"))))
      ensures log == old(log) + [ReportOf(v, run, Uncertain, Bare(OtherReason("RECOVERY_REQUIRES_INSPECTION")), Recovery)]
    {
      hide Follows, MayReport, Step;
      var note := Bare(OtherReason("RECOVERY_REQUIRES_INSPECTION"));
      EarlyUntold(run);
      MayRecover(v, run, note);
      LockFreed(world, ReportOf(v, run, Uncertain, note, Recovery));
      r := Commit(v, run, Uncertain, note, Recovery);
    }

    lemma MayRecover(v: View, run: string, note: Note)
      requires world.lock.Free? && InSlot(world.task, run) && Active(world.task) && !world.task.execution.value.status.Reserved?
      ensures MayReport(world, ReportOf(v, run, Uncertain, note, Recovery))
    {
    }

    /** What a crash left: the runner is asked again, and nothing is launched. A run
        the runner cannot be asked about becomes, or stays, uncertain. */
    method Recover(v: View, run: string, plan: Digest, inspected: Option<Ending>, found: Aftermath) returns (r: Reported)
      requires Valid() && world.lock.Free?
      modifies this
      ensures Valid() && world.lock.Free? && world.drivers == old(world.drivers) && Bystanders(old(log), log)
      ensures run !in old(runs) || old(runs)[run].plan != plan ==> r == Raised(RunMissing) && log == old(log)
      ensures run in old(runs) && old(runs)[run].plan == plan ==>
                var e := old(runs)[run];
                if IsTerminal(e.status) || e.status.Reserved? then r == Returned(e) && log == old(log)
                else Recovered(old(task), old(told), old(log), v, run, inspected, found, r, log)
    {
      hide Follows, Apply, BasisLoss, MayReport, Verdict, Bystanders, SlotTold, TestsFailed, Laws.RunStands, Deserved, Rule;
      BystandersNone(log);
      if run !in runs || runs[run].plan != plan {
        return Raised(RunMissing);
      }
      var previous := runs[run];
      if !(previous.status.Dispatching? || previous.status.Running? || previous.status.Uncertain?) {
        return Returned(previous);
      }
      FollowsOne(first, log, world);
      assert InSlot(task, run) && task.execution.value == previous && Active(task);
      if inspected.None? {
        if previous.status.Uncertain? {
          return Returned(previous);
        }
        BystandersMore(log, log, ReportOf(v, run, Uncertain, Bare(OtherReason("RECOVERY_REQUIRES_INSPECTION")), Recovery));
        r := Unanswered(v, run);
        return;
      }
      ghost var ruling := Rule(task, v, inspected.value, NoReason, found);
      if ruling.Told? {
        BystandersMore(log, log, ReportOf(v, run, ruling.status, ruling.note, Recovery));
      }
      r := Finish(v, run, inspected.value, NoReason, found, Recovery);
    }

    /** What other parties do while the driver waits. */
    method Others(meanwhile: seq<Meanwhile>)
      requires Valid() && world.lock.Free?
      modifies this
      ensures Valid() && world.lock.Free? && world.drivers == old(world.drivers) && Bystanders(old(log), log)
    {
      hide ExecutionCoordinator.Valid, Bystanders, Recovered;
      var i := 0;
      BystandersNone(log);
      while i < |meanwhile|
        invariant Valid() && world.lock.Free? && world.drivers == old(world.drivers) && Bystanders(old(log), log)
      {
        ghost var before := log;
        match meanwhile[i] {
          case Commits(v, a) =>
            var refusal := Tell(v, a);
            BystandersMore(old(log), before, Other(v, a));
          case Recovers(v, run, plan, inspected, found) =>
            var _ := Recover(v, run, plan, inspected, found);
            BystandersTwice(old(log), before, log);
        }
        i := i + 1;
      }
    }

    lemma MayGiveUp(v: View, run: string, note: Note, who: Reporter)
      requires world.lock.Free? && run in world.drivers && (who.Grace? || (who.Driver? && Active(world.task)))
      ensures InSlot(world.task, run) ==> MayReport(world, ReportOf(v, run, Uncertain, note, who))
    {
    }

    /** The driver records that it lost sight of the process. */
    method GiveUp(v: View, run: string, reason: Cause, ghost who: Reporter) returns (r: Reported)
      requires Valid() && world.lock.Free? && run in world.drivers && (who.Grace? || (who.Driver? && Active(task)))
      modifies this
      ensures Valid() && world.lock.Free? && r == Reply(old(task), old(told), run, Uncertain, Bare(reason))
      ensures Enters(old(task), old(told), run, Uncertain) ==>
                && log == old(log) + [ReportOf(v, run, Uncertain, Bare(reason), who)] && run !in world.drivers
                && (run, Uncertain) in told && run in runs && runs[run] == Noted(old(task).execution.value, Uncertain, Bare(reason))
      ensures InSlot(old(task), run) ==> (run, Uncertain) in told
      ensures !Enters(old(task), old(told), run, Uncertain) ==>
                log == old(log) && world == old(world) && task == old(task) && told == old(told)
    {
      hide Follows, MayReport, Step, Active;
      MayGiveUp(v, run, Bare(reason), who);
      LockFreed(world, ReportOf(v, run, Uncertain, Bare(reason), who));
      r := Commit(v, run, Uncertain, Bare(reason), who);
      FollowsOne(first, log, world);
    }

    /** What the loop's handler makes of a failure inside it: an active run is
        recorded as lost from sight, and any other failure goes on to the caller. */
    method LoseSight(v: View, run: string, fault: Fault) returns (r: Reported)
      requires Valid() && world.lock.Free? && run in world.drivers
      modifies this
      ensures Valid() && world.lock.Free?
      ensures InSlot(old(task), run) && Active(old(task)) && !old(task).execution.value.status.Uncertain? ==>
                && r == Returned(Noted(old(task).execution.value, Uncertain, Bare(OtherReason("PROCESS_OBSERVATION_FAILED"))))
                && log == old(log) + [ReportOf(v, run, Uncertain, Bare(OtherReason("PROCESS_OBSERVATION_FAILED")), Driver)]
                && run !in world.drivers
      ensures !(InSlot(old(task), run) && Active(old(task)) && !old(task).execution.value.status.Uncertain?) ==>
                !r.Died? && log == old(log) && world == old(world)
      ensures InSlot(old(task), run) && !(Active(old(task)) && !old(task).execution.value.status.Uncertain?) ==> r == Raised(fault)
    {
      hide Follows;
      if InSlot(task, run) && IsEarly(task.execution.value.status) {
        EarlyUntold(run);
      }
      if Active(task) && !task.execution.value.status.Uncertain? {
        r := GiveUp(v, run, OtherReason("PROCESS_OBSERVATION_FAILED"), Driver);
      } else {
        r := Raised(fault);
      }
    }

    ghost method LeaveRun(run: string)
      requires Valid() && run in world.drivers
      modifies this`world, this`log
      ensures Valid() && world == Step(old(world), Leave(run)) && log == old(log) + [Leave(run)]
    {
      hide Follows;
      Observe(Leave(run));
    }

    /** The log is where the world is. */
    lemma WorldNow()
      requires Valid()
      ensures After(first, log, |log|) == world && world.task == task
    {
    }

    /** The process has ended: its end is settled. */
    method Conclude(run: string, look: Look, why: Cause) returns (r: Reported)
      requires Valid() && world.lock.Free? && run in world.drivers && look.poll.Ended?
      modifies this
      ensures Valid() && world.lock.Free? && Parted(old(log), old(world), run, look, why, r, log, world)
    {
      hide Follows, BasisLoss, Verdict, SlotTold, TestsFailed, Laws.RunStands, Deserved;
      var end := AsSeen(look.poll.ending, look.poll.cancelled);
      if InSlot(task, run) && Active(task) {
        RulesExactly(task, look.view, end, why, look.poll.aftermath);
      }
      if InSlot(task, run) && IsEarly(task.execution.value.status) {
        EarlyUntold(run);
      }
      r := Finish(look.view, run, end, why, look.poll.aftermath, Driver);
      if r.Raised? {
        r := LoseSight(look.view, run, r.fault);
      }
    }

    /** The process did not stop within the grace it was given. */
    method EndGrace(run: string, look: Look, why: Cause) returns (r: Reported)
      requires Valid() && world.lock.Free? && run in world.drivers && look.poll.Pending?
      modifies this
      ensures Valid() && world.lock.Free? && Parted(old(log), old(world), run, look, why, r, log, world)
    {
      hide Follows, Active, SlotTold, TestsFailed;
      if InSlot(task, run) && IsEarly(task.execution.value.status) {
        EarlyUntold(run);
      }
      r := GiveUp(look.view, run, OtherReason("TERMINATION_UNCONFIRMED"), Grace);
      if r.Raised? {
        ActiveEarly(task);
        r := LoseSight(look.view, run, r.fault);
      }
    }

    /** The process cannot be observed. */
    method LoseProcess(run: string, look: Look, why: Cause) returns (r: Reported)
      requires Valid() && world.lock.Free? && run in world.drivers && look.poll.Unobservable?
      modifies this
      ensures Valid() && world.lock.Free? && Parted(old(log), old(world), run, look, why, r, log, world)
    {
      hide Follows;
      if InSlot(task, run) && IsEarly(task.execution.value.status) {
        EarlyUntold(run);
      }
      r := LoseSight(look.view, run, NotObserved);
    }

    /** The look that ends the watch: the driver records what it comes to, unless
        that record exists, and leaves. */
    method Close(run: string, look: Look, why: Cause) returns (r: Reported)
      requires Valid() && world.lock.Free? && run in world.drivers
      modifies this
      ensures Valid() && world.lock.Free? && run !in world.drivers && !r.Died?
      ensures log == old(log) + [Parting(old(world), run, look, why)] && PartingTold(old(task), log[|log| - 1], r)
      ensures InSlot(old(task), run) && look.poll.Ended? && !Active(old(task)) ==> r == Returned(old(task).execution.value)
      ensures look.poll.Unobservable? && InSlot(old(task), run) && log[|log| - 1].Leave? ==> r == Raised(NotObserved)
    {
      hide ExecutionCoordinator.Valid, Closing, Active;
      WorldNow();
      match look.poll {
        case Ended(_, _, _) => r := Conclude(run, look, why);
        case Pending(_, _, _) => r := EndGrace(run, look, why);
        case Unobservable => r := LoseProcess(run, look, why);
      }
      if log == old(log) {
        LeaveRun(run);
      }
    }

    /** The polling loop: until the process ends, the driver loses sight of it, its
        grace runs out after it asked the process to stop, or the driver dies. Look
        `at` ends it, with `seen` committed before and the reason `why` held. */
    method Watch(run: string, previous: Execution, looks: seq<Look>)
      returns (r: Reported, ghost at: nat, ghost seen: seq<Event>, ghost why: Cause)
      requires Valid() && world.lock.Free? && run in world.drivers
      modifies this
      ensures Valid() && world.lock.Free? && run !in world.drivers
      ensures at <= |looks| && Bystanders(old(log), seen) && Reasoned(first, seen, looks, at, previous, why)
      ensures at == |looks| ==> r.Died? && log == seen + [Event.Crash]
      ensures at < |looks| ==>
                && log == seen + [Parting(After(first, seen, |seen|), run, looks[at], why)]
                && PartingTold(After(first, seen, |seen|).task, log[|log| - 1], r) && !r.Died?
                && (looks[at].poll.Pending? ==> looks[at].poll.graceOver && !why.NoReason?)
      ensures at < |looks| && log[|log| - 1].Report? && log[|log| - 1].status.Succeeded? ==>
                Achieved(After(first, seen, |seen|).task, looks[at])
      ensures AllAchieved(first, old(log), log, looks)
    {
      hide ExecutionCoordinator.Valid, Bystanders, BasisLoss, Achieved, Reasoned, Parting, AllAchieved, PartingTold;
      var reason: Cause, cancelSent := NoReason, false;
      var i := 0;
      BystandersNone(log);
      NotReasoned(first, log, looks, previous);
      while i < |looks|
        invariant Valid() && world.lock.Free? && run in world.drivers && i <= |looks| && Bystanders(old(log), log)
        invariant Reasoned(first, log, looks, i, previous, reason) && (cancelSent <==> !reason.NoReason?)
      {
        var look := looks[i];
        ghost var before := log;
        Others(look.before);
        BystandersTwice(old(log), before, log);
        BystandersLonger(before, log);
        ReasonedKept(first, before, log, looks, i, previous, reason);
        WorldNow();
        if !look.poll.Pending? || (cancelSent && look.poll.graceOver) {
          at, seen, why := i, log, reason;
          PartingAchieved(first, old(log), seen, looks, i, run, reason);
          PartingEarned(world, run, look, reason);
          r := Close(run, look, reason);
          return;
        }
        if !cancelSent {
          if look.poll.cancelled {
            reason := OtherReason("RUN_CANCELLED");
          }
          var loss := BasisLoss(task, look.view, previous);
          if loss.Some? {
            reason := BasisLost(loss.value);
          }
          if !reason.NoReason? || look.poll.overdue {
            reason := Prefer(reason, OtherReason("TIMEOUT"));
            cancelSent := true;
          }
          ReasonedNow(first, log, looks, i, previous, reason);
        } else {
          ReasonedLater(first, log, log, looks, i, previous, reason);
        }
        i := i + 1;
      }
      at, seen, why := i, log, reason;
      Crashed();
      CrashAchieved(first, old(log), seen, looks);
      r := Died;
    }

    ghost method Crashed()
      requires Valid()
      modifies this`world, this`log
      ensures Valid() && world.lock.Free? && world.drivers == {} && log == old(log) + [Event.Crash]
    {
      hide Follows;
      Observe(Event.Crash);
    }

    /** One execution of a reserved run. Only the driver that records the dispatch
        launches, and what an earlier driver left is recovered, never launched again. */
    method Execute(v: View, run: string, plan: Digest, cancelled: bool, preflight: Option<string>, crash: Crash, launch: Launch,
                   looks: seq<Look>, inspected: Option<Ending>, found: Aftermath) returns (r: Reported)
      requires Valid() && world.lock.Free?
      modifies this
      ensures Valid() && world.lock.Free?
      ensures run !in old(runs) || old(runs)[run].plan != plan ==> r == Raised(RunMissing) && log == old(log)
      ensures run in old(runs) && old(runs)[run].plan == plan && IsTerminal(old(runs)[run].status) ==>
                r == Returned(old(runs)[run]) && log == old(log)
      ensures run in old(runs) && old(runs)[run].plan == plan && !IsTerminal(old(runs)[run].status)
              && !old(runs)[run].status.Reserved? ==>
                Recovered(old(task), old(told), old(log), v, run, inspected, found, r, log)
      ensures run in old(runs) && old(runs)[run].plan == plan && old(runs)[run].status.Reserved? ==>
                var e := old(runs)[run];
                var refusal := DispatchRefusal(cancelled, BasisLoss(old(task), v, e), preflight);
                if refusal.Some? then
                  && r == Returned(Noted(e, RunStatus.Failed, Bare(refusal.value)))
                  && log == old(log) + [ReportOf(v, run, RunStatus.Failed, Bare(refusal.value), Preflight)]
                else
                  LaunchTold(old(log) + [Event.Dispatch(v, run)], log, v, run, crash, launch, e, r)
      ensures NoLaunch(old(log), log) || (LaunchedOnce(old(log), log, run) && old(runs)[run].status.Reserved?)
      ensures run in old(runs) && old(runs)[run].plan == plan && old(runs)[run].status.Reserved? ==>
                if cancelled || preflight.Some? || BasisLoss(old(task), v, old(runs)[run]).Some? then
                  NoLaunch(old(log), log) && r.Returned? && ((run, RunStatus.Failed) in told)
                else !crash.BeforeLaunch? ==> LaunchedOnce(old(log), log, run)
      ensures AllAchieved(first, old(log), log, looks)
    {
      hide ExecutionCoordinator.Valid, NoLaunch, LaunchedOnce, BasisLoss, Active, Legal, Recovered, Bystanders, AllAchieved, LaunchTold;
      NoLaunchYet(log);
      NoneAchieved(first, log, log, looks);
      if run !in runs || runs[run].plan != plan {
        return Raised(RunMissing);
      }
      var previous := runs[run];
      if IsTerminal(previous.status) {
        return Returned(previous);
      }
      if !previous.status.Reserved? {
        r := Recover(v, run, plan, inspected, found);
        BystandersQuiet(first, old(log), log, looks);
        return;
      }
      InSlotNow(run);
      var loss: Option<Cause> := if cancelled then Some(OtherReason("RUN_CANCELLED"))
                  else if BasisLoss(task, v, previous).Some? then Some(BasisLost(BasisLoss(task, v, previous).value))
                  else if preflight.Some? then Some(OtherReason(preflight.value)) else None;
      if loss.Some? {
        r := RefuseDispatch(v, run, loss.value);
        RefusedQuiet(first, old(log), ReportOf(v, run, RunStatus.Failed, Bare(loss.value), Preflight), looks);
        return;
      }
      LegalDispatch(v, run);
      RecordDispatch(v, run);
      r := LaunchAndWatch(v, run, previous, crash, launch, looks);
      LaunchToldSame(old(log) + [Event.Dispatch(v, run)], log, v, run, crash, launch, previous, r);
      LaunchedTrace(first, old(log), v, run, crash, log, looks);
    }

    lemma InSlotNow(run: string)
      requires Valid() && run in runs && !IsTerminal(runs[run].status)
      ensures InSlot(task, run) && task.execution.value == runs[run]
    {
      hide Follows;
      FollowsOne(first, log, world);
    }

    lemma LegalDispatch(v: View, run: string)
      requires Valid() && world.lock.Free? && InSlot(task, run) && task.execution.value.status.Reserved?
      requires BasisLoss(task, v, task.execution.value).None?
      ensures Legal(world, Event.Dispatch(v, run))
    {
      hide Follows, BasisLoss;
      FollowsUntold(first, log, world);
      FollowsOne(first, log, world);
    }

    method RefuseDispatch(v: View, run: string, reason: Cause) returns (r: Reported)
      requires Valid() && world.lock.Free? && InSlot(task, run) && task.execution.value.status.Reserved?
      modifies this
      ensures Valid() && world.lock.Free? && (run, RunStatus.Failed) in told
      ensures r == Returned(Noted(old(task).execution.value, RunStatus.Failed, Bare(reason)))
      ensures log == old(log) + [ReportOf(v, run, RunStatus.Failed, Bare(reason), Preflight)]
    {
      hide Follows, Step, MayReport;
      EarlyUntold(run);
      MayRefuse(v, run, reason);
      LockFreed(world, ReportOf(v, run, RunStatus.Failed, Bare(reason), Preflight));
      r := Commit(v, run, RunStatus.Failed, Bare(reason), Preflight);
    }

    lemma MayRefuse(v: View, run: string, reason: Cause)
      requires world.lock.Free? && InSlot(world.task, run) && world.task.execution.value.status.Reserved?
      ensures MayReport(world, ReportOf(v, run, RunStatus.Failed, Bare(reason), Preflight))
    {
    }

    /** With the dispatch recorded: the runner is called, its answer recorded while
        the lock is still held, and the process watched. */
    method LaunchAndWatch(v: View, run: string, previous: Execution, crash: Crash, launch: Launch, looks: seq<Look>)
      returns (r: Reported)
      requires Valid() && world.lock == Armed(run) && InSlot(task, run)
      modifies this
      ensures Valid() && world.lock.Free?
      ensures LaunchTold(old(log), log, v, run, crash, launch, old(task).execution.value, r)
      ensures crash.Survives? && launch != Started(true) ==> (run, Uncertain) in told
      ensures if crash.BeforeLaunch? then log == old(log) + [Event.Crash] else NoLaunch(old(log) + [CallRunner(run)], log)
      ensures AllAchieved(first, old(log), log, looks)
      ensures crash.Survives? && launch != Started(true) ==> world.drivers == old(world).drivers
    {
      hide Follows, Step, MayReport, Active, Bystanders, Reasoned, Parting, AllAchieved, NoLaunch, After, SlotTold;
      if crash.BeforeLaunch? {
        Crashed();
        NoneAchieved(first, old(log), log, looks);
        return Died;
      }
      LockLaunched(world, run);
      Observe(CallRunner(run));
      ghost var called := log;
      assert called == old(log) + [CallRunner(run)];
      NoLaunchYet(called);
      if crash.AfterLaunch? {
        NoLaunchMore(called, called, Event.Crash);
        Crashed();
        NoneAchieved(first, old(log), log, looks);
        return Died;
      }
      ghost var report := LaunchReport(v, run, launch);
      var running := launch == Started(true);
      var status := if running then Running else Uncertain;
      var note := Bare(if running then NoReason else OtherReason("LAUNCH_OUTCOME_UNKNOWN"));
      MayTell(v, run, status, note);
      LockFreed(world, report);
      LostUnwatched(world, v, run, launch);
      NoLaunchMore(called, called, report);
      r := Commit(v, run, status, note, Launcher);
      ghost var known := log;
      assert known == old(log) + [CallRunner(run), report];
      NoneAchieved(first, old(log), known, looks);
      if running {
        ghost var at, seen, why;
        r, at, seen, why := Watch(run, previous, looks);
        if at < |looks| {
          PartingQuiet(After(first, seen, |seen|), run, looks[at], why);
        }
        WatchedTrace(called, known, seen, log);
        AchievedLater(first, old(log), known, log, looks);
      }
    }

    lemma LockLaunched(w: World, run: string)
      ensures Step(w, CallRunner(run)) == w.(lock := Launched(run))
      ensures w.lock == Armed(run) ==> Legal(w, CallRunner(run))
    {
    }

    lemma LostUnwatched(w: World, v: View, run: string, launch: Launch)
      ensures launch != Started(true) ==> Step(w, LaunchReport(v, run, launch)).drivers == w.drivers
    {
      hide Apply;
    }

    lemma MayTell(v: View, run: string, status: RunStatus, note: Note)
      requires Valid() && world.lock == Launched(run) && InSlot(task, run) && (status.Running? || status.Uncertain?)
      ensures MayReport(world, ReportOf(v, run, status, note, Launcher)) && (run, status) !in told
    {
      hide Follows;
      FollowsUntold(first, log, world);
    }
  }
}
