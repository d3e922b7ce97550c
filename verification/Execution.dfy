/** Command execution as micro-steps over the durable task, the volatile drivers
    and the task lock: reserved, dispatching, launched, observed, recovered. A
    crash can come between any two of them. */
module Execution {
  import opened Results
  import opened Workflow
  import A = Approvals

  /** Who holds the task lock across commits: a driver between recording the
      dispatch and recording what the launch came to. */
  datatype Lock = Free | Armed(run: string) | Launched(run: string)

  /** `runs` is the last record of each run, `recorded` the run events committed so
      far, `drivers` the runs some live process is watching. */
  datatype World = World(task: Task, runs: map<string, Execution>, recorded: set<(string, RunStatus)>, lock: Lock,
                         drivers: set<string>)

  /** Why a status is recorded: a check before dispatch failed, the launch ended,
      the watching driver saw the end, its grace ran out, or recovery looked. */
  datatype Reporter = Preflight | Launcher | Driver | Grace | Recovery

  datatype Event =
    | Other(view: View, action: Action)
    | Reserve(view: View, run: string, plan: Digest)
    | Dispatch(view: View, run: string)
    | CallRunner(run: string)
    | Report(view: View, run: string, status: RunStatus, reason: Reason, stopped: bool, who: Reporter)
    | Leave(run: string)
    | Crash

  function Begin(v: View): World {
    World(Fresh(v), map[], {}, Free, {})
  }

  predicate IsTerminal(s: RunStatus) {
    s.Succeeded? || s.Failed? || s.Stale?
  }

  predicate InSlot(t: Task, run: string) {
    t.execution.Some? && t.execution.value.run == run
  }

  /** The basis on which the run was reserved still holds. */
  function BasisLoss(t: Task, v: View, e: Execution): Option<Code> {
    if StateRefusal(t, v, true).Some? then StateRefusal(t, v, true)
    else if t.paused || t.epoch != e.epoch || t.config != e.config || t.requirements.None? || t.design.None?
            || t.requirements.value.number != e.requirements || t.design.value.number != e.design then Some(RunBasisChanged)
    else BasisRefusal(t, v, true)
  }

  /** Success is recorded only on the basis the run was reserved on. */
  predicate EarnedBy(w: World, e: Event)
    requires e.Report? && InSlot(w.task, e.run)
  {
    e.status.Succeeded? ==> BasisLoss(w.task, e.view, w.task.execution.value).None?
  }

  predicate MayReport(w: World, e: Event)
    requires e.Report?
  {
    && InSlot(w.task, e.run)
    && match e.who
       case Preflight => w.lock.Free? && w.task.execution.value.status.Reserved? && e.status.Failed?
       case Launcher =>
         || (w.lock == Launched(e.run) && (e.status.Running? || e.status.Uncertain?))
         || (w.lock == Armed(e.run) && e.status.Uncertain?)
       case Driver =>
         && w.lock.Free? && e.run in w.drivers && Active(w.task) && (e.status.Uncertain? || IsTerminal(e.status))
         && EarnedBy(w, e)
       case Grace => w.lock.Free? && e.run in w.drivers && e.status.Uncertain?
       case Recovery =>
         && w.lock.Free? && Active(w.task) && !w.task.execution.value.status.Reserved?
         && (e.status.Uncertain? || IsTerminal(e.status))
         && EarnedBy(w, e)
  }

  ghost predicate Legal(w: World, e: Event) {
    match e
    case Other(v, a) => w.lock.Free? && !a.Reserving? && !a.Recording? && Apply(w.task, v, a).Next?
    case Reserve(v, run, plan) => w.lock.Free? && run !in w.runs && Apply(w.task, v, Reserving(run, plan)).Next?
    case Dispatch(v, run) =>
      && w.lock.Free? && InSlot(w.task, run) && w.task.execution.value.status.Reserved?
      && (run, Dispatching) !in w.recorded && BasisLoss(w.task, v, w.task.execution.value).None?
    case CallRunner(run) => w.lock == Armed(run)
    case Report(v, run, status, reason, stopped, who) => MayReport(w, e) && (run, status) !in w.recorded
    case Leave(run) => run in w.drivers
    case Crash => true
  }

  function Recorded(w: World, v: View, run: string, status: RunStatus, reason: Reason, stopped: bool): World {
    match Apply(w.task, v, Recording(run, status, reason, stopped))
    case Refuse(_) => w
    case Next(u) => w.(task := u, runs := if u.execution.Some? then w.runs[run := u.execution.value] else w.runs,
                       recorded := w.recorded + {(run, status)})
  }

  function ReservedBy(w: World, v: View, run: string, plan: Digest): World {
    match Apply(w.task, v, Reserving(run, plan))
    case Refuse(_) => w
    case Next(u) => w.(task := u, runs := if u.execution.Some? then w.runs[run := u.execution.value] else w.runs,
                       recorded := w.recorded + {(run, RunStatus.Reserved)})
  }

  function Step(w: World, e: Event): World {
    match e
    case Other(v, a) => if Apply(w.task, v, a).Next? then w.(task := Apply(w.task, v, a).task) else w
    case Reserve(v, run, plan) => ReservedBy(w, v, run, plan)
    case Dispatch(v, run) => Recorded(w, v, run, Dispatching, NoReason, false).(lock := Armed(run))
    case CallRunner(run) => w.(lock := Launched(run))
    case Report(v, run, status, reason, stopped, who) =>
      Recorded(w, v, run, status, reason, stopped).(
        lock := Free,
        drivers := if who.Launcher? then (if status.Running? then w.drivers + {run} else w.drivers)
                   else if who.Driver? || who.Grace? then w.drivers - {run} else w.drivers)
    case Leave(run) => w.(drivers := w.drivers - {run})
    case Crash => w.(lock := Free, drivers := {})
  }

  function After(first: View, log: seq<Event>, n: nat): World
    requires n <= |log|
  {
    if n == 0 then Begin(first) else Step(After(first, log, n - 1), log[n - 1])
  }

  /** Event `n` is lawful where it stands. */
  ghost predicate LegalAt(first: View, log: seq<Event>, n: nat)
    requires n < |log|
  {
    Legal(After(first, log, n), log[n])
  }

  ghost predicate LegalLog(first: View, log: seq<Event>) {
    forall n :: 0 <= n < |log| ==> LegalAt(first, log, n)
  }

  lemma StepAfter(first: View, log: seq<Event>, n: nat)
    requires LegalLog(first, log) && n < |log|
    ensures After(first, log, n + 1) == Step(After(first, log, n), log[n]) && Legal(After(first, log, n), log[n])
  {
    hide Legal, Step;
    assert LegalAt(first, log, n);
  }

  lemma Beginning(first: View, log: seq<Event>)
    ensures After(first, log, 0) == Begin(first)
  {
  }

  // ---- What a commit does to the slot ----

  lemma OtherReduced(t: Task, v: View, a: Action)
    requires Reduced(t, v, a).Next? && !a.Reserving? && !a.Recording?
    ensures var u := Reduced(t, v, a).task;
            u.execution == t.execution || (a.Repairing? && u.execution.None? && Ended(t))
  {
    hide SourceRefusal, ProofRefusal, BasisRefusal, HoldsRoles, Revoked, CommentRefusal, Handle, SameSource, StateRefusal;
    match a {
      case Commanding(comment, command) => A.CommandKeepsRun(t, v, comment, command);
      case _ =>
    }
  }

  lemma OtherKeepsSlot(t: Task, v: View, a: Action)
    requires Apply(t, v, a).Next? && !a.Reserving? && !a.Recording?
    ensures var u := Apply(t, v, a).task;
            u.execution == t.execution || (a.Repairing? && u.execution.None? && Ended(t))
  {
    hide Reduced, Settle, Ended;
    OtherReduced(t, v, a);
    A.SettleKeeps(Reduced(t, v, a).task);
  }

  predicate Ended(t: Task) {
    t.execution.Some? && IsTerminal(t.execution.value.status)
  }

  lemma RecordingSlot(t: Task, v: View, run: string, status: RunStatus, reason: Reason, stopped: bool)
    requires InSlot(t, run)
    ensures Apply(t, v, Recording(run, status, reason, stopped)).Next?
    ensures Apply(t, v, Recording(run, status, reason, stopped)).task.execution
         == Some(t.execution.value.(status := status, reason := reason, stopped := stopped))
    ensures Apply(t, v, Recording(run, status, reason, stopped)).task.epoch == t.epoch
  {
    hide Settle;
    A.SettleKeeps(RecordRun(t, run, status, reason, stopped).task);
  }

  lemma ReservingSlot(t: Task, v: View, run: string, plan: Digest)
    requires Apply(t, v, Reserving(run, plan)).Next?
    ensures !Active(t)
    ensures var u := Apply(t, v, Reserving(run, plan)).task;
            && u.execution.Some? && u.execution.value.run == run && u.execution.value.status == RunStatus.Reserved
            && u.execution.value.reason == NoReason && !u.execution.value.stopped
  {
    hide Settle, StateRefusal, BasisRefusal;
    A.SettleKeeps(Workflow.Reserve(t, v, run, plan).task);
  }

  // ---- One active command ----

  /** The slot repeats the last record of its run, every other run has ended, and
      while a launch is under way its run is the dispatched one. */
  predicate OneCommand(w: World) {
    && (w.task.execution.Some? ==>
          w.task.execution.value.run in w.runs && w.runs[w.task.execution.value.run] == w.task.execution.value)
    && (forall run <- w.runs :: w.runs[run].run == run && (InSlot(w.task, run) || IsTerminal(w.runs[run].status)))
    && (forall p <- w.recorded :: p.0 in w.runs)
    && (!w.lock.Free? ==> InSlot(w.task, w.lock.run) && w.task.execution.value.status.Dispatching?)
  }

  lemma OneCommandKept(w: World, e: Event)
    requires OneCommand(w) && Legal(w, e)
    ensures OneCommand(Step(w, e))
  {
    hide Apply, BasisLoss, MayReport, Active;
    match e {
      case Other(v, a) => OtherKeepsSlot(w.task, v, a);
      case Reserve(v, run, plan) => NotActiveEnded(w.task); ReservingSlot(w.task, v, run, plan);
      case Dispatch(v, run) => RecordingSlot(w.task, v, run, Dispatching, NoReason, false);
      case Report(v, run, status, reason, stopped, who) =>
        ReportInSlot(w, e);
        RecordingSlot(w.task, v, run, status, reason, stopped);
      case _ =>
    }
  }

  lemma NotActiveEnded(t: Task)
    ensures t.execution.Some? && !Active(t) ==> IsTerminal(t.execution.value.status)
  {
  }

  lemma ReportInSlot(w: World, e: Event)
    requires e.Report? && Legal(w, e)
    ensures InSlot(w.task, e.run)
  {
  }

  /** In every reachable state at most one run has not ended: the one in the slot. */
  lemma {:induction false} OneActiveCommand(first: View, log: seq<Event>, n: nat)
    requires LegalLog(first, log) && n <= |log|
    ensures OneCommand(After(first, log, n))
    ensures var w := After(first, log, n);
            forall a, b :: a in w.runs && b in w.runs && !IsTerminal(w.runs[a].status) && !IsTerminal(w.runs[b].status) ==> a == b
  {
    hide Legal, Step, After, LegalLog, Begin;
    if n == 0 {
      Beginning(first, log);
      NoCommand(first);
    } else {
      OneActiveCommand(first, log, n - 1);
      StepAfter(first, log, n - 1);
      OneCommandKept(After(first, log, n - 1), log[n - 1]);
    }
  }

  lemma NoCommand(first: View)
    ensures OneCommand(Begin(first)) && Begin(first).task.execution.None?
  {
  }

  /** Before the dispatch of a run nothing of it is recorded but the reservation,
      and before its launch is told nothing but those two. */
  predicate Untold(w: World) {
    && (forall p <- w.recorded :: p.0 in w.runs && (w.runs[p.0].status.Reserved? ==> p.1.Reserved?))
    && (forall p <- w.recorded :: !w.lock.Free? && p.0 == w.lock.run ==> p.1.Reserved? || p.1.Dispatching?)
  }

  lemma UntoldAfterReport(w: World, e: Event)
    requires OneCommand(w) && Untold(w) && e.Report? && Legal(w, e)
    ensures Untold(Step(w, e))
  {
    hide Apply, Active;
    RecordingSlot(w.task, e.view, e.run, e.status, e.reason, e.stopped);
    var next := Step(w, e);
    assert next.recorded == w.recorded + {(e.run, e.status)} && next.lock.Free?;
    assert next.runs == w.runs[e.run := w.task.execution.value.(status := e.status, reason := e.reason, stopped := e.stopped)];
  }

  lemma UntoldKept(w: World, e: Event)
    requires OneCommand(w) && Untold(w) && Legal(w, e)
    ensures Untold(Step(w, e))
  {
    hide Apply, BasisLoss, MayReport;
    match e {
      case Reserve(v, run, plan) => ReservingSlot(w.task, v, run, plan);
      case Dispatch(v, run) => RecordingSlot(w.task, v, run, Dispatching, NoReason, false);
      case Report(_, _, _, _, _, _) => UntoldAfterReport(w, e);
      case _ =>
    }
  }

  lemma {:induction false} UntoldAlways(first: View, log: seq<Event>, n: nat)
    requires LegalLog(first, log) && n <= |log|
    ensures Untold(After(first, log, n))
  {
    hide Legal, Step, After, LegalLog, OneCommand;
    if n == 0 {
      Beginning(first, log);
    } else {
      UntoldAlways(first, log, n - 1);
      OneActiveCommand(first, log, n - 1);
      StepAfter(first, log, n - 1);
      UntoldKept(After(first, log, n - 1), log[n - 1]);
    }
  }

  predicate IsEarly(s: RunStatus) {
    s.Reserved? || s.Dispatching? || s.Running?
  }

  /** Until a run is uncertain or has ended, neither was ever recorded of it. */
  predicate NothingLate(w: World) {
    w.task.execution.Some? && IsEarly(w.task.execution.value.status) ==>
      forall p <- w.recorded :: p.0 == w.task.execution.value.run ==> IsEarly(p.1)
  }

  lemma NothingLateKept(w: World, e: Event)
    requires OneCommand(w) && Untold(w) && NothingLate(w) && Legal(w, e)
    ensures NothingLate(Step(w, e))
  {
    hide Apply, BasisLoss, Active;
    match e {
      case Other(v, a) => OtherKeepsSlot(w.task, v, a);
      case Reserve(v, run, plan) => ReservingSlot(w.task, v, run, plan);
      case Dispatch(v, run) => RecordingSlot(w.task, v, run, Dispatching, NoReason, false);
      case Report(v, run, status, reason, stopped, who) =>
        ReportInSlot(w, e);
        RecordingSlot(w.task, v, run, status, reason, stopped);
      case _ =>
    }
  }

  lemma {:induction false} NothingLateAlways(first: View, log: seq<Event>, n: nat)
    requires LegalLog(first, log) && n <= |log|
    ensures NothingLate(After(first, log, n))
  {
    hide Legal, Step, After, LegalLog, OneCommand, Untold;
    if n == 0 {
      Beginning(first, log);
      NoCommand(first);
    } else {
      NothingLateAlways(first, log, n - 1);
      OneActiveCommand(first, log, n - 1);
      UntoldAlways(first, log, n - 1);
      StepAfter(first, log, n - 1);
      NothingLateKept(After(first, log, n - 1), log[n - 1]);
    }
  }

  // ---- At most one launch ----

  /** The dispatch of the run is recorded, and nobody is about to launch it. */
  predicate Spent(w: World, run: string) {
    (run, Dispatching) in w.recorded && w.lock != Armed(run)
  }

  predicate ArmedRecorded(w: World) {
    w.lock.Armed? ==> (w.lock.run, Dispatching) in w.recorded
  }

  lemma RecordedGrows(w: World, v: View, run: string, status: RunStatus, reason: Reason, stopped: bool)
    ensures w.recorded <= Recorded(w, v, run, status, reason, stopped).recorded
    ensures InSlot(w.task, run) ==> (run, status) in Recorded(w, v, run, status, reason, stopped).recorded
  {
    hide Apply;
    if InSlot(w.task, run) {
      RecordingSlot(w.task, v, run, status, reason, stopped);
    }
  }

  lemma ArmedKept(w: World, e: Event)
    requires ArmedRecorded(w) && Legal(w, e)
    ensures ArmedRecorded(Step(w, e))
  {
    hide Apply, BasisLoss, MayReport, Recorded;
    if e.Dispatch? {
      RecordedGrows(w, e.view, e.run, Dispatching, NoReason, false);
    }
  }

  lemma SpentKept(w: World, e: Event, run: string)
    requires Spent(w, run) && Legal(w, e)
    ensures Spent(Step(w, e), run)
  {
    hide Apply, BasisLoss, MayReport, Recorded;
    if e.Dispatch? {
      RecordedGrows(w, e.view, e.run, Dispatching, NoReason, false);
    } else if e.Report? {
      RecordedGrows(w, e.view, e.run, e.status, e.reason, e.stopped);
    }
  }

  lemma {:induction false} ArmedAlways(first: View, log: seq<Event>, n: nat)
    requires LegalLog(first, log) && n <= |log|
    ensures ArmedRecorded(After(first, log, n))
  {
    hide Legal, Step, After, LegalLog;
    if n == 0 {
      Beginning(first, log);
    } else {
      ArmedAlways(first, log, n - 1);
      StepAfter(first, log, n - 1);
      ArmedKept(After(first, log, n - 1), log[n - 1]);
    }
  }

  lemma {:induction false} SpentAfterwards(first: View, log: seq<Event>, i: nat, n: nat, run: string)
    requires LegalLog(first, log) && i < n <= |log| && log[i] == CallRunner(run)
    ensures Spent(After(first, log, n), run)
  {
    hide Legal, Step, After, LegalLog, Spent;
    StepAfter(first, log, n - 1);
    if n == i + 1 {
      ArmedAlways(first, log, i);
      SpentNow(After(first, log, i), run);
    } else {
      SpentAfterwards(first, log, i, n - 1, run);
      SpentKept(After(first, log, n - 1), log[n - 1], run);
    }
  }

  lemma SpentNow(w: World, run: string)
    requires ArmedRecorded(w) && Legal(w, CallRunner(run))
    ensures Spent(Step(w, CallRunner(run)), run)
  {
  }

  lemma SpentNotLaunched(w: World, run: string)
    requires Spent(w, run)
    ensures !Legal(w, CallRunner(run))
  {
  }

  /** Over any history of crashes, restarts and redeliveries, and any number of
      drivers, no run is launched twice. */
  lemma StartedOnce(first: View, log: seq<Event>, i: nat, j: nat)
    requires LegalLog(first, log) && i < j < |log| && log[i].CallRunner? && log[j].CallRunner?
    ensures log[i].run != log[j].run
  {
    hide Legal, Step, After, LegalLog, Spent;
    if log[i].run == log[j].run {
      StepAfter(first, log, j);
      SpentAfterwards(first, log, i, j, log[i].run);
      SpentNotLaunched(After(first, log, j), log[j].run);
    }
  }

  lemma {:induction false} ArmedBy(first: View, log: seq<Event>, n: nat, run: string)
    requires LegalLog(first, log) && n <= |log| && After(first, log, n).lock == Armed(run)
    ensures exists k :: 0 <= k < n && log[k].Dispatch? && log[k].run == run
  {
    hide Apply, BasisLoss, MayReport, Recorded, After, LegalLog;
    Beginning(first, log);
    if n > 0 {
      StepAfter(first, log, n - 1);
      if After(first, log, n - 1).lock == Armed(run) {
        ArmedBy(first, log, n - 1, run);
      }
    }
  }

  /** A launch comes only after the commit that records the dispatch. */
  lemma DispatchedFirst(first: View, log: seq<Event>, i: nat)
    requires LegalLog(first, log) && i < |log| && log[i].CallRunner?
    ensures (log[i].run, Dispatching) in After(first, log, i).recorded
    ensures exists k :: 0 <= k < i && log[k].Dispatch? && log[k].run == log[i].run
  {
    hide Step, After, LegalLog;
    StepAfter(first, log, i);
    ArmedAlways(first, log, i);
    ArmedBy(first, log, i, log[i].run);
  }

  // ---- Success ----

  /** The success of a run is recorded by event `k`, on an intact basis. */
  ghost predicate SucceedsAt(first: View, log: seq<Event>, k: nat, run: string)
    requires k < |log|
  {
    && log[k].Report? && log[k].run == run && log[k].status.Succeeded? && InSlot(After(first, log, k).task, run)
    && BasisLoss(After(first, log, k).task, log[k].view, After(first, log, k).task.execution.value).None?
  }

  lemma SuccessStep(w: World, e: Event, run: string)
    requires OneCommand(w) && Legal(w, e)
    requires run in Step(w, e).runs && Step(w, e).runs[run].status.Succeeded?
    ensures || (run in w.runs && w.runs[run].status.Succeeded?)
            || (&& e.Report? && e.run == run && e.status.Succeeded? && InSlot(w.task, run)
                && BasisLoss(w.task, e.view, w.task.execution.value).None?)
  {
    hide Apply, BasisLoss, Active;
    match e {
      case Report(v, r, status, reason, stopped, who) =>
        ReportInSlot(w, e);
        ReportedRun(w, e);
      case Reserve(v, r, plan) => ReservingSlot(w.task, v, r, plan);
      case Dispatch(v, r) => RecordingSlot(w.task, v, r, Dispatching, NoReason, false);
      case _ =>
    }
  }

  /** Whatever recorded it, driver or recovery, every success in the record was
      recorded while approvals, epoch and configuration were those of the
      reservation. */
  lemma {:induction false} SuccessEarned(first: View, log: seq<Event>, n: nat, run: string)
    requires LegalLog(first, log) && n <= |log|
    requires run in After(first, log, n).runs && After(first, log, n).runs[run].status.Succeeded?
    ensures exists k :: 0 <= k < n && SucceedsAt(first, log, k, run)
  {
    hide Legal, Step, After, LegalLog, OneCommand, BasisLoss, InSlot;
    if n == 0 {
      Beginning(first, log);
      NoCommand(first);
    } else {
      StepAfter(first, log, n - 1);
      OneActiveCommand(first, log, n - 1);
      SuccessStep(After(first, log, n - 1), log[n - 1], run);
      if run in After(first, log, n - 1).runs && After(first, log, n - 1).runs[run].status.Succeeded? {
        SuccessEarned(first, log, n - 1, run);
      } else {
        assert SucceedsAt(first, log, n - 1, run);
      }
    }
  }

  // ---- Terminal statuses ----

  /** A driver whose grace ran out records an outcome for a run that has ended. */
  predicate LateGrace(w: World, e: Event) {
    e.Report? && e.who.Grace? && !Active(w.task)
  }

  predicate Final(w: World, run: string) {
    run in w.runs && IsTerminal(w.runs[run].status)
  }

  lemma ReportedRun(w: World, e: Event)
    requires OneCommand(w) && e.Report? && InSlot(w.task, e.run)
    ensures Step(w, e).runs
         == w.runs[e.run := w.task.execution.value.(status := e.status, reason := e.reason, stopped := e.stopped)]
  {
    hide Apply, Active;
    RecordingSlot(w.task, e.view, e.run, e.status, e.reason, e.stopped);
  }

  /** The record of an ended run changes exactly when such a driver rewrites it. */
  lemma FinalExactly(w: World, e: Event, run: string)
    requires OneCommand(w) && Legal(w, e) && Final(w, run)
    ensures (run in Step(w, e).runs && Step(w, e).runs[run].status == w.runs[run].status) <==> !(LateGrace(w, e) && e.run == run)
  {
    hide Apply, BasisLoss, InSlot;
    match e {
      case Report(v, r, status, reason, stopped, who) =>
        ReportedRun(w, e);
        SlotOf(w, r);
      case Reserve(v, r, plan) => ReservingSlot(w.task, v, r, plan);
      case Dispatch(v, r) =>
        SlotOf(w, r);
        RecordingSlot(w.task, v, r, Dispatching, NoReason, false);
      case _ =>
    }
  }

  lemma SlotOf(w: World, run: string)
    requires OneCommand(w) && InSlot(w.task, run)
    ensures run in w.runs && w.runs[run] == w.task.execution.value
    ensures Active(w.task) <==> !IsTerminal(w.runs[run].status)
  {
  }

  /** One live driver per run: nobody recovers a run that a driver is watching. */
  predicate Alone(w: World, e: Event) {
    e.Report? && e.who.Recovery? ==> e.run !in w.drivers
  }

  /** A watched or just dispatched run is the active one in the slot. */
  predicate Watched(w: World) {
    && (forall run <- w.drivers :: InSlot(w.task, run) && Active(w.task) && !w.task.execution.value.status.Reserved?)
    && (!w.lock.Free? ==> w.drivers == {})
  }

  lemma WatchedAfterReport(w: World, e: Event)
    requires OneCommand(w) && Watched(w) && Alone(w, e) && e.Report? && Legal(w, e)
    ensures Watched(Step(w, e))
  {
    hide Apply;
    RecordingSlot(w.task, e.view, e.run, e.status, e.reason, e.stopped);
    var next := Step(w, e);
    assert next.task.execution == Some(w.task.execution.value.(status := e.status, reason := e.reason, stopped := e.stopped));
  }

  lemma WatchedKept(w: World, e: Event)
    requires OneCommand(w) && Watched(w) && Alone(w, e) && Legal(w, e)
    ensures Watched(Step(w, e))
  {
    hide Apply, BasisLoss, MayReport;
    match e {
      case Other(v, a) => OtherKeepsSlot(w.task, v, a);
      case Reserve(v, run, plan) => ReservingSlot(w.task, v, run, plan);
      case Dispatch(v, run) => RecordingSlot(w.task, v, run, Dispatching, NoReason, false);
      case Report(_, _, _, _, _, _) => WatchedAfterReport(w, e);
      case _ =>
    }
  }

  ghost predicate AllAlone(first: View, log: seq<Event>) {
    forall n :: 0 <= n < |log| ==> Alone(After(first, log, n), log[n])
  }

  lemma {:induction false} WatchedAlways(first: View, log: seq<Event>, n: nat)
    requires LegalLog(first, log) && AllAlone(first, log) && n <= |log|
    ensures Watched(After(first, log, n))
  {
    hide Legal, Step, After, LegalLog, OneCommand, Alone;
    if n == 0 {
      Beginning(first, log);
      NoCommand(first);
    } else {
      WatchedAlways(first, log, n - 1);
      OneActiveCommand(first, log, n - 1);
      StepAfter(first, log, n - 1);
      assert Alone(After(first, log, n - 1), log[n - 1]);
      WatchedKept(After(first, log, n - 1), log[n - 1]);
    }
  }

  /** With one live driver per run, a terminal status is final. */
  lemma {:induction false} TerminalIsFinal(first: View, log: seq<Event>, i: nat, n: nat, run: string)
    requires LegalLog(first, log) && AllAlone(first, log) && i <= n <= |log| && Final(After(first, log, i), run)
    ensures Final(After(first, log, n), run)
    ensures After(first, log, n).runs[run].status == After(first, log, i).runs[run].status
  {
    hide Legal, Step, After, LegalLog, OneCommand, Alone, AllAlone;
    if i < n {
      TerminalIsFinal(first, log, i, n - 1, run);
      WatchedAlways(first, log, n - 1);
      OneActiveCommand(first, log, n - 1);
      StepAfter(first, log, n - 1);
      NoLateGrace(After(first, log, n - 1), log[n - 1]);
      FinalExactly(After(first, log, n - 1), log[n - 1], run);
    }
  }

  lemma NoLateGrace(w: World, e: Event)
    requires Watched(w) && Legal(w, e)
    ensures !LateGrace(w, e)
  {
  }

  // ---- A failed run holds the gate ----

  predicate Stuck(w: World, run: string) {
    A.StuckOn(w.task, run)
  }

  lemma StuckKept(w: World, e: Event, run: string)
    requires A.Inv(w.task) && Stuck(w, run) && Legal(w, e) && !LateGrace(w, e)
    requires w.lock.Free? && Step(w, e).task.epoch == w.task.epoch && !(e.Other? && e.action.Repairing?)
    ensures Stuck(Step(w, e), run) && !e.Reserve? && !e.Report? && !e.Dispatch?
  {
    hide Apply, BasisLoss, A.Inv;
    match e {
      case Other(v, a) => A.StillHeld(w.task, v, a, run);
      case Reserve(v, r, plan) => A.GateHeld(w.task, v, run, r, plan);
      case _ =>
    }
  }

  lemma {:induction false} TaskInv(first: View, log: seq<Event>, n: nat)
    requires LegalLog(first, log) && n <= |log|
    ensures A.Inv(After(first, log, n).task)
  {
    hide After, LegalLog, A.Inv, Apply, BasisLoss, MayReport, Fresh;
    if n == 0 {
      Beginning(first, log);
      A.InvFresh(first);
    } else {
      TaskInv(first, log, n - 1);
      StepAfter(first, log, n - 1);
      TaskStep(After(first, log, n - 1), log[n - 1]);
    }
  }

  lemma TaskStep(w: World, e: Event)
    requires A.Inv(w.task) && Legal(w, e)
    ensures A.Inv(Step(w, e).task)
  {
    hide A.Inv, Apply, BasisLoss, MayReport;
    match e {
      case Other(v, a) => A.InvStep(w.task, v, a);
      case Reserve(v, run, plan) => A.InvStep(w.task, v, Reserving(run, plan));
      case Dispatch(v, run) => TaskRecorded(w, v, run, Dispatching, NoReason, false);
      case Report(v, run, status, reason, stopped, who) => TaskRecorded(w, v, run, status, reason, stopped);
      case _ =>
    }
  }

  lemma TaskRecorded(w: World, v: View, run: string, status: RunStatus, reason: Reason, stopped: bool)
    requires A.Inv(w.task)
    ensures A.Inv(Recorded(w, v, run, status, reason, stopped).task)
  {
    hide A.Inv, Apply;
    if Apply(w.task, v, Recording(run, status, reason, stopped)).Next? {
      A.InvStep(w.task, v, Recording(run, status, reason, stopped));
    }
  }

  lemma EpochOfStep(w: World, e: Event)
    requires A.Inv(w.task) && Legal(w, e)
    ensures w.task.epoch <= Step(w, e).task.epoch
  {
    hide Apply, BasisLoss, MayReport, Settle, A.Grants, A.SameScope, A.Grew, A.BasisOf;
    match e {
      case Other(v, a) => A.EpochStep(w.task, v, a, {});
      case Reserve(v, run, plan) => A.EpochStep(w.task, v, Reserving(run, plan), {});
      case Dispatch(v, run) => RecordingSlot(w.task, v, run, Dispatching, NoReason, false);
      case Report(v, run, status, reason, stopped, who) =>
        ReportInSlot(w, e);
        RecordingSlot(w.task, v, run, status, reason, stopped);
      case _ =>
    }
  }

  lemma {:induction false} EpochGrows(first: View, log: seq<Event>, i: nat, n: nat)
    requires LegalLog(first, log) && i <= n <= |log|
    ensures After(first, log, i).task.epoch <= After(first, log, n).task.epoch
  {
    hide After, LegalLog, A.Inv, Legal, Step;
    if i < n {
      EpochGrows(first, log, i, n - 1);
      TaskInv(first, log, n - 1);
      StepAfter(first, log, n - 1);
      EpochOfStep(After(first, log, n - 1), log[n - 1]);
    }
  }

  predicate Repairs(e: Event) {
    e.Other? && e.action.Repairing?
  }

  /** A run that failed or went stale under the present epoch blocks every further
      reservation, until the epoch moves or the run is released for repair, as long
      as no driver rewrites it late. */
  lemma {:induction false} FailedRunBlocks(first: View, log: seq<Event>, i: nat, n: nat, run: string)
    requires LegalLog(first, log) && i <= n < |log| && Stuck(After(first, log, i), run) && After(first, log, i).lock.Free?
    requires After(first, log, n + 1).task.epoch == After(first, log, i).task.epoch
    requires forall k :: i <= k <= n ==> !Repairs(log[k]) && !LateGrace(After(first, log, k), log[k])
    ensures !log[n].Reserve? && Stuck(After(first, log, n + 1), run) && After(first, log, n + 1).lock.Free?
    decreases n - i
  {
    hide After, LegalLog, A.Inv, Legal, Step, Stuck, LateGrace;
    EpochGrows(first, log, i, n);
    EpochGrows(first, log, n, n + 1);
    if i < n {
      FailedRunBlocks(first, log, i, n - 1, run);
    }
    TaskInv(first, log, n);
    StepAfter(first, log, n);
    StuckKept(After(first, log, n), log[n], run);
    LockStaysFree(After(first, log, n), log[n]);
  }

  lemma LockStaysFree(w: World, e: Event)
    requires w.lock.Free? && Legal(w, e) && !e.Dispatch?
    ensures Step(w, e).lock.Free?
  {
    hide Apply, BasisLoss, Active;
  }

  // ---- Cancellation and commands ----

  lemma CancelledStep(w: World, e: Event)
    requires A.Inv(w.task) && OneCommand(w) && Watched(w) && Legal(w, e) && !A.CancelledRuns(w.task)
    ensures !A.CancelledRuns(Step(w, e).task)
  {
    hide Apply, BasisLoss, A.Inv, A.CancelledRuns;
    match e {
      case Other(v, a) => A.CancelledRunsExactly(w.task, v, a);
      case Reserve(v, run, plan) => A.CancelledRunsExactly(w.task, v, Reserving(run, plan));
      case Dispatch(v, run) =>
        RecordingSlot(w.task, v, run, Dispatching, NoReason, false);
        A.CancelledRunsExactly(w.task, v, Recording(run, Dispatching, NoReason, false));
      case Report(v, run, status, reason, stopped, who) =>
        ReportInSlot(w, e);
        RecordingSlot(w.task, v, run, status, reason, stopped);
        A.CancelledRunsExactly(w.task, v, Recording(run, status, reason, stopped));
      case _ =>
    }
  }

  /** With one live driver per run, a cancelled task never has an active command. */
  lemma {:induction false} CancelledIsIdle(first: View, log: seq<Event>, n: nat)
    requires LegalLog(first, log) && AllAlone(first, log) && n <= |log|
    ensures !A.CancelledRuns(After(first, log, n).task)
  {
    hide After, LegalLog, A.Inv, A.CancelledRuns, Legal, Step, Watched, AllAlone, OneCommand;
    if n == 0 {
      Beginning(first, log);
      NoCommand(first);
      A.FreshIsIdle(first);
    } else {
      CancelledIsIdle(first, log, n - 1);
      WatchedAlways(first, log, n - 1);
      TaskInv(first, log, n - 1);
      OneActiveCommand(first, log, n - 1);
      StepAfter(first, log, n - 1);
      CancelledStep(After(first, log, n - 1), log[n - 1]);
    }
  }
}
