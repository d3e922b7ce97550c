# Durable task control, verified

This project models the kernel that turns a GitHub Issue into reviewed, tested and
published work, and proves what the kernel is for: that a crash, a lost answer, a
redelivery or a human command between any two steps never repeats an effect, never
loses or forges an approval, and never lets work continue on a basis that is gone.
`dafny verify dfyconfig.toml` checks everything.

Each protocol has two layers. A state machine over plain values gives the micro-steps
(durable change, volatile step, environment) and the log of a lawful history, and
lemmas about whole histories carry the main results. A class with the mutable state
and the loops of the program follows that machine: its `Valid()` ties the fields to
the state a lawful log reaches, so every law of the machine holds of every object in
every state a method leaves. What the outside does (runner, model adapter, git,
GitHub, people, clocks, crashes) is a parameter: an oracle per question, a script of
answers, or the events of others in between.

| files | what they model |
|---|---|
| `Journal.dfy` | the append-only, hash-chained log of one task on a disk where a crash can come between any two publications |
| `Workflow.dfy`, `WorkflowLaws.dfy`, `Approvals.dfy`, `WorkflowEngine.dfy` | the task state, every reducer and what it means, approvals, epochs and cancellation |
| `TaskJournal.dfy` | the workflow's reducers committed through the journal, and the lawful history every journal stands for |
| `Execution.dfy`, `LateOutcome.dfy`, `Coordinator.dfy` | command runs: reserve, dispatch, launch, poll, recover |
| `Transcripts.dfy`, `TranscriptLaws.dfy`, `Sessions.dfy`, `SessionLaws.dfy`, `SessionHistory.dfy`, `SessionBudget.dfy`, `ModelRuns.dfy` | model calls, tool claims, budgets and transcripts |
| `Agent.dfy`, `AgentLoop.dfy` | the agent's stages, step reservations, checks and repairs |
| `Publication.dfy`, `Publisher.dfy`, `PublicationGate.dfy` | candidate, push, pull request, check and invalidation, and what the task's gate makes of a publication |
| `EventProcessor.dfy`, `ReplayCompletion.dfy`, `ReplayLaws.dfy` | stored deliveries, their replays into the journals of their tasks, and what these leave of the approvals |
| `Scheduling.dfy`, `Scheduler.dfy` | the fair scheduler |
| `Patch.dfy`, `PatchText.dfy`, `PatchStrict.dfy`, `Workspace.dfy`, `WorkspaceLaws.dfy`, `Decimal.dfy` | the strict unified diff: apply, undo, print and parse, which texts are diffs, workspace edits and when they are granted |
| `Bytes.dfy`, `RsaKey.dfy`, `RsaSignature.dfy` | DER keys (section A.1.2 of RFC 8017, section 5 of RFC 5208) and PKCS#1 v1.5 signatures (sections 8.2 and 9.2 of RFC 8017) |
| `JUnit.dfy` | the counting of JUnit reports |

Where the code is weaker than it looks, the statements follow the code:

- The cancellation epoch is no stamp of the approvals. The line that moves it
  (`ai_dlc/workflow/engine.py:337`) belongs to stop, cancel and resume only, so
  approving requirements, starting and approving a design leave it alone.
  `Approvals.EpochStamp` gives the exact condition, `Approvals.EpochIsNoFullStamp` an
  instance.
- `ai_dlc/execution/coordinator.py:233` records `uncertain` without looking whether
  the run has ended. `Execution.FinalExactly` shows that this is the only way an ended
  run is rewritten, `LateOutcome.EndedRunRewritten` and
  `LateOutcome.CancelledRunRevived` give histories in which a failed run comes to have
  succeeded and a cancelled task to have an active command, and
  `Execution.TerminalIsFinal` shows that one live driver per run rules it out; the
  launch laws need no such assumption.
- `ai_dlc/execution/file_tools.py:224` ignores an existing file when a diff creates its
  path, and line 270 deletes a file whatever its hunks leave. `Workspace.CreationUndone`
  and `Workspace.DeletionUndone` say exactly when undoing such a diff works.
- The second header line of a file in a diff is not checked for its `+++ ` mark
  (`ai_dlc/execution/file_tools.py:217`); the model reads it the same way.
- Settling a model call replaces the reserved timeout by the elapsed time, which may be
  larger, so the limit on active seconds can be passed. `SessionBudget.CapLeftExactly`
  says by which change, `SessionBudget.CappedButForOverruns` by how much at most, and
  `SessionBudget.CapBroken` gives a history.
- The content of a source event holds the digest of the live Issue document
  (`ai_dlc/workflow/engine.py:220`), so a replay after the Issue changed collides with
  its own earlier record. `ReplayCompletion.ReplayAfterEdit` shows such a run. The exact
  condition under which an undisturbed replay settles its delivery is the contract of
  `EventProcessor.Service.Process`, and `ReplayCompletion.UnobstructedCompletes` names
  everything that can keep it from settling.
- The codes that end a publication (`ai_dlc/publishing/engine.py:15`) leave out those of
  an edited comment and of one that is not a person's, so an approval whose comment was
  edited only blocks the publication, while one whose comment was deleted ends it.
  `PublicationGate.FindingEnds` says exactly which findings end it, and
  `PublicationGate.VeiledApprovalOnlyBlocks` gives the whole family that does not.

Whatever decides in a method also appears in its contract, so each such rule has a law
that says it again without it: `WorkflowLaws.RoleMeans` for the roles,
`Journal.DecisionMeans` for a commit, `Publisher.EndsExactly` for the codes,
`Coordinator.ReasonsExactly` for the reasons of a failed run, and so on.

## Model

| member | source | states |
|---|---|---|
| Journal.Records | ai_dlc/storage/journal.py:236-276 | the reading loop accepts exactly the directories that are one gap-free, digest-linked chain of well-signed records of this task with distinct events and present blobs, and returns those records in order |
| Journal.AcceptedExactly | ai_dlc/storage/journal.py:236-276 | a directory is accepted, as these records, if and only if its files are numbered from one without a gap and every record is of this task, linked to the one before, under an identifier of its own, signed over all it says, with every blob it names present under its digest |
| Journal.FileJournal.constructor | ai_dlc/storage/journal.py:114-121 | a new store starts with an acceptable, empty journal |
| Journal.FileJournal.Reopen | ai_dlc/storage/journal.py:114-121 | a new process on the same disk finds the disk as the old one left it and is healthy |
| Journal.FileJournal.PublishBlobs | ai_dlc/storage/journal.py:359-364 | whatever publication fails, the journal reads the same; on success every blob the record will name is present |
| Journal.FileJournal.Commit | ai_dlc/storage/journal.py:318-372 | for every placement of a failure the journal is the old one or the old one with one record; a record is appended only for an identifier new to the journal, under the revision the caller named, which is the present one, with the state the reducer gives; a stale revision changes nothing and is a conflict unless the identifier is known; a redelivery writes nothing |
| Journal.FileJournal.Recover | ai_dlc/storage/journal.py:304-316 | recovery never changes the journal and leaves a snapshot of its last record, or reports the failure |
| Journal.Experience | ai_dlc/storage/journal.py:318-372 | one commit, failure, crash or restart adds nothing, or one record carrying the event that was offered |
| Journal.Live | ai_dlc/storage/journal.py:236-372 | over any sequence of commits, failures, crashes and restarts the disk stays acceptable, the journal only grows, no event is in it twice, and nothing is in it that was not offered |
| Journal.ChainNext | ai_dlc/storage/journal.py:236-276 | what the reader remembers of the records before is enough to decide whether the next record continues the chain |
| Journal.LeftoverHarmless | ai_dlc/storage/journal.py:86-104 | a half-published file left by a crash changes nothing the reader sees |
| Journal.BlobHarmless | ai_dlc/storage/journal.py:359-364 | a blob published ahead of its record keeps every accepted journal accepted and unchanged |
| Journal.RecordAppends | ai_dlc/storage/journal.py:365-366 | publishing the next record of the chain appends exactly that record to what the reader returns |
| Journal.DistinctEvents | ai_dlc/storage/journal.py:337-343 | the records of a sound disk have pairwise different event identifiers |
| Journal.RetryAddsNothing | ai_dlc/storage/journal.py:337-343 | once an event is in the journal, every later attempt with the same content is answered from the journal and any other content is refused, whatever the reducer would say |
| Journal.DecisionMeans | ai_dlc/storage/journal.py:337-346 | what a commit decides, in raw terms: the same content under a known identifier is answered, other content collides, a revision other than the present one conflicts, and only then the reducer is asked |
| Journal.ArgumentsMean | ai_dlc/storage/journal.py:326-332 | a commit is looked at only with a revision that may exist, a proper identifier, and documents for its event and every blob |
| Journal.SameHeadSameHistory | ai_dlc/storage/journal.py:236-276 | two accepted journals of one task that end in the same digest are equal record for record, or two documents share a digest |
| Journal.HeadIdentifiesHistory | ai_dlc/storage/journal.py:347-353 | with an injective digest the head digests of two accepted journals agree if and only if the journals do |
| Scheduling.InvAlways | ai_dlc/service/scheduler.py:83-88 | in every state of every run of submissions, turns and completions the four limits hold, the rotation lists exactly the repositories with queued work once each, queues hold only their own repository's work, and every identity is in one place |
| Scheduling.RoundRobin | ai_dlc/service/scheduler.py:173-200 | between two looks at one repository, hence between two dispatches, every other repository with work queued throughout is looked at, and its oldest work starts if it is eligible then |
| Scheduling.SubmissionOrder | ai_dlc/service/scheduler.py:104-107 | per repository, the submission order is the dispatch order followed by what is still queued |
| Scheduling.StillAhead | ai_dlc/service/scheduler.py:174-187 | from the moment a repository is looked at, every other one that keeps queued work stays ahead of it until it is looked at itself |
| Scheduling.OnePlaceKept | ai_dlc/service/scheduler.py:96-108 | no event puts an identity into two queues, or into a queue and the active works |
| Scheduling.LimitsAfterDispatch | ai_dlc/service/scheduler.py:124-134 | starting an eligible work keeps the global, repository, model and provider limits |
| Scheduler.Counts | ai_dlc/service/scheduler.py:114-122 | the counting pass ends with, for every repository and provider, the number of its active works, and the number of active model calls |
| Scheduler.WaitingExact | ai_dlc/service/scheduler.py:124-134 | no reason to wait is found from exact tables if and only if all four limits have room |
| Scheduler.EligibleExactly | ai_dlc/service/scheduler.py:124-134 | a work is eligible if and only if all limits still hold with it among the active ones |
| Scheduler.FairScheduler.constructor | ai_dlc/service/scheduler.py:69-90 | a new scheduler follows the empty history and accepts work |
| Scheduler.FairScheduler.Submit | ai_dlc/service/scheduler.py:96-108 | a known identity changes nothing, a closed intake refuses, and a new identity extends the history by exactly its submission and drops its old failed result |
| Scheduler.FairScheduler.CloseIntake | ai_dlc/service/scheduler.py:110-112 | after closing the intake every invariant still holds and nothing more is accepted |
| Scheduler.FairScheduler.Look | ai_dlc/service/scheduler.py:145-166 | a running work that is late is marked and asked to stop, keeping its capacity; an ended one leaves with one result, and a late one is never completed |
| Scheduler.FairScheduler.Collect | ai_dlc/service/scheduler.py:151-166 | an ended work leaves the active works and no queue changes; only a failed one may be submitted again |
| Scheduler.FairScheduler.Reap | ai_dlc/service/scheduler.py:144-166 | one pass leaves exactly the works not seen ended and exactly the results of the others, and touches no queue |
| Scheduler.PassMeans | ai_dlc/service/scheduler.py:145-166 | a work overdue while it still ran keeps its capacity, is asked to stop, and whatever it returns later is a timeout; one that raised has failed; one without a timeout is never overdue |
| Scheduler.FairScheduler.Examine | ai_dlc/service/scheduler.py:174-199 | one turn takes the history one look further: it starts the oldest work of the front repository if and only if that is eligible, and otherwise only rotates |
| Scheduler.FairScheduler.DispatchAll | ai_dlc/service/scheduler.py:171-200 | the dispatch loop ends, and it ends only when the global limit is reached or every queued repository's oldest work has to wait |
| Scheduler.FairScheduler.Tick | ai_dlc/service/scheduler.py:168-200 | a cycle terminates, is maximal on return, counts its dispatches, and neither submits nor loses an identity |
| Scheduler.FairScheduler.AcknowledgeCompleted | ai_dlc/service/scheduler.py:223-230 | acknowledged results are released and forgotten, while identities still queued or active stay known |
| Scheduler.FairScheduler.Shutdown | ai_dlc/service/scheduler.py:232-253 | the works reported unfinished are exactly those accepted, not finished and not acknowledged |
| Scheduler.FairScheduler.RequestCancel | ai_dlc/service/scheduler.py:237-239 | cancellation is asked of every active work and no work leaves for it |
| Scheduler.FairScheduler.ClearQueues | ai_dlc/service/scheduler.py:246-253 | clearing the queues drops exactly the queued identities and nothing that is active or has a result |
| Scheduler.Release | ai_dlc/service/scheduler.py:226-230 | of the identities with results exactly those not active are forgotten |
| Scheduler.TurnMoves | ai_dlc/service/scheduler.py:178-199 | a turn that starts a work moves its identity from the queues to the active works and no other turn moves any |
| Scheduler.AccountSubmit | ai_dlc/service/scheduler.py:100-107 | an identity that is not known is neither queued nor active, and submitting it keeps the accounts |
| Transcripts.Check | ai_dlc/models/types.py:186-197 | the two nested loops accept a transcript exactly if every result answers a waiting call, nothing else comes while a call waits, no call identity is used twice and none waits at the end |
| TranscriptLaws.AcceptedMeans | ai_dlc/models/types.py:186-197 | a transcript may be sent if and only if every result comes once and after its call, nothing else comes while a call waits for its result, no call identity is used twice, and in the end every call has its result |
| Transcripts.AfterAnswer | ai_dlc/models/types.py:186-197 | an answer with fresh, distinct call identities leaves exactly those waiting |
| Transcripts.AfterResult | ai_dlc/models/types.py:189-193 | a tool result leaves all other calls waiting and forgets no identity |
| Sessions.InvKept | ai_dlc/models/sessions.py:96-272 | every committed change, by whichever driver or operator, keeps transcripts faithful, one open request and one claimed tool at most, no open request beside an unfinished tool, and every counter within its limit |
| Sessions.TranscriptAccepted | ai_dlc/models/sessions.py:153-154 | a session's transcript passes the request check if and only if all its tools are done; so an idle run's transcripts are never rejected |
| Sessions.FaithfulKept | ai_dlc/models/sessions.py:211-258 | replaying any transcript ends with exactly the session's unfinished calls waiting and exactly its calls seen, after every change |
| Sessions.OneAtATimeKept | ai_dlc/models/sessions.py:161-238 | no change opens a second request, claims a second tool, or opens a request while a tool is unfinished |
| Sessions.BudgetKept | ai_dlc/models/sessions.py:170-239 | calls, claims and attempts stay within their limits, and claimed tools are counted exactly |
| SessionHistory.TranscriptsAlways | ai_dlc/models/sessions.py:90-124 | the transcript law holds in every state of every history with crashes, abandoned requests and interleaved drivers |
| SessionHistory.LedgerAlways | ai_dlc/models/sessions.py:175-217 | always, the call counter is the number of attempts reserved, and the active seconds are the sum over all of them of the elapsed time if settled, else of the timeout |
| SessionHistory.TotalSettled | ai_dlc/models/sessions.py:199-217 | settling one attempt changes the total by its elapsed time less its timeout and by nothing else |
| SessionHistory.CalledOnce | ai_dlc/models/sessions.py:180-184 | over any history with crashes and restarts no attempt reaches the adapter twice |
| SessionHistory.ReservedFirst | ai_dlc/models/sessions.py:161-184 | every adapter call comes after the commit that reserved its attempt |
| SessionBudget.CapLeftExactly | ai_dlc/models/sessions.py:199-217 | a change takes the active seconds over their limit if and only if it settles an attempt that overran its timeout by more than the room left |
| SessionBudget.CappedButForOverruns | ai_dlc/models/sessions.py:172-217 | in every history the active seconds are at most the limit plus the sum of all overruns; so without an overrun they never pass the limit |
| SessionBudget.CapBroken | ai_dlc/models/sessions.py:199-206 | a concrete lawful history of three events ends with five active seconds under a limit of one |
| SessionLaws.SessionOpensOnce | ai_dlc/models/sessions.py:113-124 | a new session opens exactly on a run with no open request and no unfinished tool, changes nothing else, can be sent at once, and opening it again changes nothing or is refused for another definition |
| SessionLaws.SessionLeftForGood | ai_dlc/models/sessions.py:113-124 | a session that another one replaced is not opened again |
| SessionLaws.AttemptReserved | ai_dlc/models/sessions.py:126-180 | a driver that read the run as it is reserves an attempt exactly if the request may be attempted in the active session, nothing else is open, and calls, seconds and retries last; the transcript is then always in order |
| SessionLaws.StaleDriverRefused | ai_dlc/models/sessions.py:161-168 | an attempt is reserved only for a driver that read the active session's transcript and the request as they are |
| SessionLaws.AttemptShutsOut | ai_dlc/models/sessions.py:161-180 | a reserved attempt is charged in full, and while it is out no other attempt, new session or tool claim is accepted, whatever was read |
| SessionLaws.AttemptFailed | ai_dlc/models/sessions.py:161-206 | reserving and failing come to one call and the seconds that went by, leave transcripts and tools alone, allow a retry exactly under the four conditions, and cannot be failed twice |
| SessionLaws.FailOnlyPending | ai_dlc/models/sessions.py:195-206 | exactly a pending request can fail |
| SessionLaws.AnswerOffersTools | ai_dlc/models/sessions.py:211-224 | an answer is recorded exactly for the pending request with calls new to the run; it settles the request, ends the transcript, offers one ready tool per call, the first of which can be claimed while no attempt can be reserved |
| SessionLaws.SettledForever | ai_dlc/models/sessions.py:161-272 | no accepted change alters a request that is answered, failed for good or abandoned |
| SessionLaws.AbandonedRequest | ai_dlc/models/sessions.py:262-272 | exactly an open request is abandoned; its charge stays and the run is free for other work |
| SessionLaws.ClaimExcludes | ai_dlc/models/sessions.py:227-242 | a tool is claimed exactly if it is ready, none is at work and the budget lasts; no tool is claimed again until that one is finished |
| SessionLaws.ResultToldOnce | ai_dlc/models/sessions.py:244-260 | a result is told once: the same digest again changes nothing, another one is refused |
| Sessions.AddedTools | ai_dlc/models/sessions.py:221-222 | an answer adds exactly one ready tool of its session per call and changes no other tool |
| ModelRuns.ModelRun.constructor | ai_dlc/models/sessions.py:59-75 | a created run follows the empty history with all counters at zero |
| ModelRuns.ModelRun.Generate | ai_dlc/models/sessions.py:126-225 | which of the outcomes comes about, exactly: answered from the store, effect unknown, failed before, refused, or reserved and only then called, at most once, with others committing and the driver dying at any point; an answer comes back if and only if it is in time, not cancelled and its calls are new and permitted, and a failure is charged for its seconds and retried exactly under the adapter's own conditions |
| ModelRuns.ModelRun.Settle | ai_dlc/models/sessions.py:182-225 | a permitted answer in time is recorded exactly if the request is still pending and its calls are new to the run; everything else is recorded as a failure with what is known of its effect |
| ModelRuns.AttemptMeans | ai_dlc/models/sessions.py:161-180 | a driver with the present view may attempt a request if and only if it is new or waits for a retry, nothing else is open or unfinished, and calls, seconds and attempts last |
| ModelRuns.FailureCharged | ai_dlc/models/sessions.py:191-206 | a failed call costs one call and the seconds that went by, and waits for another attempt if and only if the adapter said so, reported no effect, named a delay within a minute, and attempts are left |
| Approvals.InvAlways | ai_dlc/workflow/engine.py:45-74 | in every reachable state start approval implies started, started implies an approval of question-free requirements, a design names the current requirements, a design approval implies a question-free design in collaborative mode on a started task, and a requested cancellation has an active command |
| Approvals.OrderedStep | ai_dlc/workflow/engine.py:192-416 | each event keeps the order between the approvals, from whichever engine it comes |
| Approvals.SettleTwice | ai_dlc/workflow/engine.py:45-69 | settling a settled state changes nothing, so records that only note something leave the workflow state alone |
| Approvals.ApprovalGranted | ai_dlc/workflow/engine.py:263-340 | every approval in force was granted by one committed, unedited comment of a person who held the gate's role and every other role named, at that time |
| Approvals.NeverGrantedAgain | ai_dlc/workflow/engine.py:339-365 | an approval that was lost is never in force again, however often its comment is redelivered, restored or replayed |
| Approvals.EpochGrows | ai_dlc/workflow/engine.py:72-74 | the cancellation epoch never decreases |
| Approvals.EpochStamp | ai_dlc/workflow/engine.py:263-340 | equal epochs always mean the same source, configuration, requirements, design, pause and amendments; and the same approvals, start and policies if and only if no approval or start command was committed in between |
| Approvals.EpochStampStarted | ai_dlc/workflow/engine.py:305-314 | from a started state only the design approval can differ at the same epoch |
| Approvals.EpochIsNoFullStamp | ai_dlc/workflow/engine.py:278-294 | a concrete history in which two states with the same epoch differ in an approval |
| Approvals.EpochStep | ai_dlc/workflow/engine.py:192-416 | an event that leaves the epoch alone leaves the whole basis alone, unless it is an approval or start command, which only adds |
| Approvals.CancelledForever | ai_dlc/workflow/engine.py:99-104 | no event un-cancels a task |
| Approvals.CancelledRunsExactly | ai_dlc/workflow/engine.py:57-67 | a cancelled task comes to have an active command exactly if a record revives a run that had ended |
| Approvals.CancelledIsIdle | ai_dlc/workflow/engine.py:57-67 | without such a record no cancelled task ever has an active command |
| Approvals.FailedRunBlocks | ai_dlc/workflow/engine.py:64-66 | a run failed or stale on the current epoch refuses every reservation until the epoch moves or the run is released or rewritten |
| Approvals.GateHeld | ai_dlc/workflow/engine.py:379-394 | while such a run is in the slot the gate is closed for every plan |
| WorkflowEngine.Draft.FindRevoked | ai_dlc/workflow/engine.py:347-355 | the loop finds exactly the gates whose approval the live facts revoke, or stops at the first finding that revokes nothing and refuses the event with it |
| WorkflowLaws.RoleMeans | ai_dlc/workflow/engine.py:151-156 | a role is held exactly by a writer who is in the operator's list of the role; contributing needs no list, and lacking it is always the same refusal |
| WorkflowLaws.RolesMean | ai_dlc/workflow/engine.py:158-160 | several roles are held exactly if each of them is |
| WorkflowLaws.CommentMeans | ai_dlc/workflow/engine.py:134-149 | what is wrong with a comment: it is gone, cannot be observed, is not a person's or was edited, and nothing else |
| WorkflowLaws.ProofMeans | ai_dlc/workflow/engine.py:164-171 | an approval stands exactly if its comment still reads as it did and its author holds every role it was given for; it is revoked exactly if it is seen not to stand |
| WorkflowLaws.ProofCodes | ai_dlc/workflow/engine.py:164-171 | with which code an approval that does not stand is found |
| WorkflowLaws.BasisMeans | ai_dlc/workflow/engine.py:173-181 | the basis holds exactly if the Issue reads as captured, the work was started, and requirement, start and, where asked for, design approval stand |
| WorkflowLaws.RefusalMeans | ai_dlc/workflow/engine.py:96-124 | when and why policy, cancellation and source refuse work |
| WorkflowLaws.SettleShows | ai_dlc/workflow/engine.py:45-69 | what is shown of a settled task tells exactly whether a command may be asked for, and whether it is cancelled or waits to be; nothing but phase, status and the two cancellation flags moves |
| WorkflowLaws.IdleShows | ai_dlc/workflow/engine.py:45-69 | what a task without a command is shown as: paused, failed, waiting for a person or queued, exactly when each |
| WorkflowLaws.ActiveShows | ai_dlc/workflow/engine.py:59-62 | what a task with an active command is shown as |
| WorkflowLaws.GateExactly | ai_dlc/workflow/engine.py:379-394 | the gate is open exactly for a ready task under the present policy whose source and approvals still hold |
| WorkflowLaws.ResetTakesBack | ai_dlc/workflow/engine.py:72-74 | a reset leaves no approval, start, requirements or design, closes the gate under every observation, moves the epoch, and keeps source, amendments, command and flags |
| WorkflowLaws.CaptureRefused | ai_dlc/workflow/engine.py:192-220 | looking at the Issue is refused exactly on another policy or a task that is cancelled or about to be |
| WorkflowLaws.SameContentKeeps | ai_dlc/workflow/engine.py:126-133 | the same content under a new version changes nothing but the recorded observation |
| WorkflowLaws.ChangedContentResets | ai_dlc/workflow/engine.py:192-220 | changed content becomes the source and takes back every approval, amendment and document; nothing is reserved until they are given again |
| WorkflowLaws.ClosedIssueCancels | ai_dlc/workflow/engine.py:216-219 | a closed Issue cancels an idle task at once and an active one as soon as its command has stopped |
| WorkflowLaws.CaptureTwice | ai_dlc/workflow/engine.py:192-220 | a second look under the same observation changes nothing, or finds the task closed by the first |
| WorkflowLaws.NormalizeRenews | ai_dlc/workflow/engine.py:222-235 | new requirements are accepted exactly on the present policy and source, carry that source and the amendments under a number of their own, and withdraw everything approved for earlier ones |
| WorkflowLaws.DesignRenews | ai_dlc/workflow/engine.py:237-254 | a design is accepted exactly for the current requirements while their approval and the start hold; it gets a number of its own and withdraws the design approval alone |
| WorkflowLaws.CommandAuthorized | ai_dlc/workflow/engine.py:263-340 | no command is accepted but from an unedited comment of a person who may write to the repository and, but for an amendment, is in the configured list of the command's role; and none but stop and cancel on another policy or source |
| WorkflowLaws.StrangerForbidden | ai_dlc/workflow/engine.py:151-160 | a command with nothing else wrong, by somebody who does not hold its role, is refused as forbidden |
| WorkflowLaws.RolesAsked | ai_dlc/workflow/engine.py:286-290 | approving requirements takes the approver's role, and the starter's as well exactly if it starts work where the repository asks for a start |
| WorkflowLaws.HaltAccepted | ai_dlc/workflow/engine.py:263-340 | stop and cancel are accepted exactly from an operator's comment on a task not yet cancelled, whatever became of policy and source |
| WorkflowLaws.ApprovalHolds | ai_dlc/workflow/engine.py:278-294 | an approval is accepted exactly for the current, question-free, not yet approved requirements, from holders of the roles it takes, with permitted options; it stands as things are, it starts the work exactly if the policy says so, and nothing else moves, the epoch included |
| WorkflowLaws.ApprovedOnce | ai_dlc/workflow/engine.py:284-285 | approved requirements are not approved again by any comment under any observation |
| WorkflowLaws.StartHolds | ai_dlc/workflow/engine.py:295-304 | a start is accepted exactly once, by a starter, while the approval it builds on holds; its proof holds as things are |
| WorkflowLaws.DesignApprovalAccepted | ai_dlc/workflow/engine.py:305-314 | a design approval is accepted exactly on a standing basis for the current, question-free design of a collaborative task from a design approver |
| WorkflowLaws.DesignApprovalOpens | ai_dlc/workflow/engine.py:305-314 | after a design approval the gate, seen the same way, is open unless a command is active, the task paused, or a command failed under the same approvals |
| WorkflowLaws.AmendmentAccepted | ai_dlc/workflow/engine.py:315-320 | an amendment is accepted exactly from a contributor, on the present policy and source, for the current requirements |
| WorkflowLaws.AmendmentReopens | ai_dlc/workflow/engine.py:315-320 | an amendment joins the earlier ones, takes back requirements, design and approvals, and until new requirements are written the gate is closed and every command about requirements refused |
| WorkflowLaws.HaltKeepsApprovals | ai_dlc/workflow/engine.py:321-337 | stop and cancel close the gate and touch no document, approval or command; cancelling waits exactly for an active command |
| WorkflowLaws.CancellationBlocks | ai_dlc/workflow/engine.py:96-104 | a task that is cancelled or about to be takes nothing but records of its command, withdrawals and notes |
| WorkflowLaws.ResumeRechecks | ai_dlc/workflow/engine.py:321-337 | a pause ends exactly by an operator's resume with every approval in force still holding, in a new epoch |
| WorkflowLaws.LostApprovalStaysPaused | ai_dlc/workflow/engine.py:321-337 | an approval whose comment was edited or reads otherwise, or whose author may no longer write or has left the list of a role it names, keeps the task paused |
| WorkflowLaws.ReconcileExactly | ai_dlc/workflow/engine.py:342-365 | reconciling is refused exactly on a closed task, another policy or source, or when an approval in force can be neither confirmed nor found revoked; it takes back exactly the approvals that fall with those revoked, and the epoch moves exactly if one did |
| WorkflowLaws.LostApprovalTakenBack | ai_dlc/workflow/engine.py:342-365 | after reconciling every approval in force has an unedited human comment that reads as it did, by somebody who may write and is in the list of each of its roles |
| WorkflowLaws.ReconcileTwice | ai_dlc/workflow/engine.py:342-365 | what reconciling leaves holds under the same observation, so doing it again changes nothing |
| WorkflowLaws.WithdrawalShuts | ai_dlc/publishing/engine.py:157-163 | a publication whose basis is gone takes every approval back in any state and closes the gate under every observation |
| WorkflowLaws.RefreshFollowsPolicy | ai_dlc/workflow/engine.py:367-377 | a refresh is refused exactly on a closed task; the task then follows the present policy, with nothing moved if it did already and no approval left otherwise |
| WorkflowLaws.NotesChangeNothing | ai_dlc/workflow/engine.py:183-190 | records of the agent, the sessions and the publisher leave the task as it is |
| WorkflowLaws.ReservationTakesSlot | ai_dlc/execution/coordinator.py:49-82 | a reservation is accepted exactly by an open gate, takes nothing but the slot, has its basis intact, and shuts out every other one while it is active |
| WorkflowLaws.RunBasisMeans | ai_dlc/execution/coordinator.py:89-98 | the basis of a run is intact exactly if policy, epoch and documents are those it was reserved on and source, start and approvals stand |
| WorkflowLaws.RecordTaken | ai_dlc/execution/coordinator.py:35-47 | a record is taken exactly for the run in the slot, changes that run alone, and completes a cancellation that waited for its end |
| WorkflowLaws.RepairReopens | ai_dlc/workflow/engine.py:396-416 | a release for repair is accepted exactly for a failed, stopped run of the present epoch that its own tests failed; it empties the slot and opens the gate that was closed |
| WorkflowLaws.GrantorEntitled | ai_dlc/workflow/engine.py:263-340 | in every history, an approval in force was given by one committed command in an unedited comment of a person who was in the list of the gate's role and of every other role the approval names |
| WorkflowEngine.Engine.Commit | ai_dlc/workflow/engine.py:183-190 | a handled comment changes nothing; any other event is applied to the current state or refused without a trace; so every reachable state is one of a lawful history |
| Execution.StartedOnce | ai_dlc/execution/coordinator.py:154-206 | over any history of crashes, restarts and redeliveries and any number of drivers no run is launched twice |
| Execution.DispatchedFirst | ai_dlc/execution/coordinator.py:181-184 | a launch comes only after the dispatch of that run is durable |
| Execution.OneActiveCommand | ai_dlc/execution/coordinator.py:35-47 | at most one run of a task has not ended, and it is the one in the slot |
| Execution.FinalExactly | ai_dlc/execution/coordinator.py:232-233 | the recorded outcome of an ended run changes if and only if a driver whose grace ran out rewrites it |
| Execution.TerminalIsFinal | ai_dlc/execution/coordinator.py:112-152 | with one live driver per run a terminal status is final |
| Execution.WatchedKept | ai_dlc/execution/coordinator.py:207-250 | with one live driver per run a watched run is the active one in the slot, and none is watched while another is being launched |
| Execution.UntoldKept | ai_dlc/execution/coordinator.py:181-188 | before its dispatch nothing of a run is recorded but the reservation, and before its launch is told nothing but those two |
| Execution.NothingLateKept | ai_dlc/execution/coordinator.py:35-47 | until a run is uncertain or has ended, neither was ever recorded of it |
| Execution.SuccessEarned | ai_dlc/execution/coordinator.py:112-152 | in every history each run recorded as succeeded, by a driver or in recovery, was recorded so while approvals, epoch and configuration were those of its reservation |
| Execution.FailedRunBlocks | ai_dlc/workflow/engine.py:379-416 | a run failed or stale on the current epoch blocks every further reservation until repair or an epoch change, as long as no driver rewrites it late |
| Execution.CancelledIsIdle | ai_dlc/workflow/engine.py:57-67 | with one live driver per run a cancelled task never has an active command |
| LateOutcome.EndedRunRewritten | ai_dlc/execution/coordinator.py:232-233 | a concrete lawful history in which a run recorded as failed is recorded as succeeded two events later, under one epoch and without a release, and another run is let in |
| LateOutcome.CancelledRunRevived | ai_dlc/execution/coordinator.py:232-233 | a concrete lawful history that ends with a cancelled task and an active command |
| Coordinator.SucceedsExactly | ai_dlc/execution/coordinator.py:126-148 | a run is recorded as succeeded if and only if its approvals hold, the process ended by itself with code zero, and the workspace is intact with its reports, if any, passed |
| Coordinator.RulesExactly | ai_dlc/execution/coordinator.py:112-152 | an observed end of an active run is recorded as succeeded exactly if that is deserved, as stale exactly if it is verified and its basis is gone, as uncertain exactly if nobody vouches for it |
| Coordinator.ReasonsExactly | ai_dlc/execution/coordinator.py:124-148 | a run is recorded as failed by its tests if and only if its basis stands and a verified end shows a failing exit code or failed reports in an intact workspace; a tampered workspace, a stop and a lost basis are told by their own reasons |
| Coordinator.ClosingMeans | ai_dlc/execution/coordinator.py:207-250 | a driver records an ended status only of a process it saw end with its whole tree stopped, never success after a cancellation; one that outlives its grace or cannot be seen leaves the run uncertain |
| Coordinator.PartingMeans | ai_dlc/execution/coordinator.py:207-250 | a driver leaves with the record its last look calls for, unless that is made already or none is called for |
| Coordinator.ReplyMeans | ai_dlc/execution/coordinator.py:35-47 | a record is made once: the same again finds the run as it is by now, another one under its status collides, and a new one is made of the run in the slot alone |
| Coordinator.DispatchMeans | ai_dlc/execution/coordinator.py:167-180 | a reserved run is dispatched if and only if nobody cancelled it, its basis stands and runtime, workspace and reports are as planned; else it fails with the first reason found |
| Coordinator.PartingEarned | ai_dlc/execution/coordinator.py:209-217 | what a driver records as succeeded is a verified end it saw without a cancellation, on an intact basis |
| Coordinator.ExecutionCoordinator.constructor | ai_dlc/workflow/engine.py:192-220 | execution starts over a freshly captured task with no run |
| Coordinator.ExecutionCoordinator.Tell | ai_dlc/workflow/engine.py:183-190 | any other engine's event is committed to the same task, or refused; a run is released for repair only after its failure was recorded with a verified end by which its tests failed |
| Coordinator.ExecutionCoordinator.Reserve | ai_dlc/execution/coordinator.py:49-82 | a run identity is reserved once; the same plan again returns its record, another plan is refused |
| Coordinator.ExecutionCoordinator.Commit | ai_dlc/execution/coordinator.py:35-47 | each status of a run is recorded once and only while its run is in the slot; the same record again finds the state as it is, and another one under the same status collides |
| Coordinator.ExecutionCoordinator.RecordDispatch | ai_dlc/execution/coordinator.py:181-182 | the dispatch is recorded with the lock held for the launch |
| Coordinator.ExecutionCoordinator.Finish | ai_dlc/execution/coordinator.py:112-152 | an ended run is left alone; an end nobody vouches for leaves the run uncertain; a verified one is recorded as failed by its tests exactly if they failed on an intact basis, a tampered workspace with its own code, or collides; a recorded success is deserved |
| Coordinator.ExecutionCoordinator.Recover | ai_dlc/execution/coordinator.py:252-269 | recovery launches nothing, leaves reserved and ended runs alone, records a run the runner cannot be asked about as uncertain, and otherwise settles what the runner tells |
| Coordinator.ExecutionCoordinator.Execute | ai_dlc/execution/coordinator.py:154-250 | only the driver that records the dispatch launches, once and directly after it; a refusal is recorded as failed with its reason; what an earlier driver left is recovered; the launch's answer is recorded next; and every success the driver records was achieved by an uncancelled look |
| Coordinator.ExecutionCoordinator.LaunchAndWatch | ai_dlc/execution/coordinator.py:183-206 | the launch's answer is recorded before anything else, as running or, if it is lost, as uncertain with nobody watching, unless the process dies first |
| Coordinator.ExecutionCoordinator.Watch | ai_dlc/execution/coordinator.py:207-250 | the polling loop ends at one look or by dying, after nothing but others' events; the driver leaves with at most one record, the one that look calls for and the one it returns; its grace ends only after it had a reason to stop; and an end seen under cancellation is never recorded as succeeded |
| Coordinator.ExecutionCoordinator.GiveUp | ai_dlc/execution/coordinator.py:232-240 | a driver that loses its process leaves uncertainty recorded for its run, with its reason unless it was recorded before |
| Coordinator.ExecutionCoordinator.LoseSight | ai_dlc/execution/coordinator.py:235-240 | a failure inside the loop records an active run as lost from sight, and otherwise reaches the caller unchanged |
| Coordinator.ExecutionCoordinator.Close | ai_dlc/execution/coordinator.py:207-250 | the driver leaves with exactly one event: the record its last look calls for, or its departure if that is recorded already |
| Publication.IssuedOnce | ai_dlc/publishing/engine.py:169-254 | over any history of runs, crashes and lost answers build, push, pull request, check and invalidation are each issued at most once |
| Publication.IntentFirst | ai_dlc/publishing/engine.py:198-239 | every effect comes right after the commit of its own intent, with only observations in between, those that clear it among them |
| Publication.EffectsCleared | ai_dlc/publishing/engine.py:186-239 | in every history push, pull request and check go out only with the gate found open and no cancellation found since their own intent, the check only after looking for it, the candidate only uncancelled |
| Publication.ObservedFirst | ai_dlc/publishing/engine.py:169-254 | every durable change rests on facts this very run saw since the change before: nothing is confirmed or published from memory |
| Publication.ChangeMeans | ai_dlc/publishing/engine.py:152-253 | what each durable change does: a publication begins with an intent alone, goes on stage by stage, is published by its last stage or a reconfirmation alone, and once ended takes only what marks its check |
| Publication.OnlyForward | ai_dlc/publishing/engine.py:169-254 | the stage only moves forward, and an invalidated publication stays invalidated and is never published |
| Publication.PublishedIsComplete | ai_dlc/publishing/engine.py:247-253 | published means stage complete and not invalidated |
| Publication.NothingAfterInvalidation | ai_dlc/publishing/engine.py:146-149 | once invalidated nothing is created any more |
| Publication.InvalidationAfterInvalidated | ai_dlc/publishing/engine.py:121-136 | a check is marked only after its publication was invalidated |
| Publication.InvStep | ai_dlc/publishing/engine.py:138-254 | every step keeps the armed effect backed by its durable intent and moves the record only forward |
| Publisher.PublicationCoordinator.Run | ai_dlc/publishing/engine.py:138-167 | from whatever record a crash left, a run follows the protocol and ends with nothing in hand; with no obstacle and an untouched remote it publishes if and only if the effect an earlier run may have been cut off in did happen; a failure blocks the publication, and ends it for good if and only if the remote moved or its basis is gone; left alone it ends exactly on a hub that holds something else than expected |
| Publisher.PublicationCoordinator.Proceed | ai_dlc/publishing/engine.py:169-254 | the walk ends without failure only as complete and published; unobstructed, exactly when every durable intent's effect is there; it fails with an ending code exactly on a hub that holds something else than expected, and with whatever the gate finds |
| Publisher.EndsExactly | ai_dlc/publishing/engine.py:15-18 | a failure ends a publication for good exactly if the remote moved or its basis is gone; a cancellation, an agent not ready, an unknown effect, a conflict and any other failure never do |
| Publisher.PublicationCoordinator.ThroughPush | ai_dlc/publishing/engine.py:193-211 | which head lets the run go on from each stage, which ends it and which leaves the effect unknown |
| Publisher.PublicationCoordinator.ThroughPull | ai_dlc/publishing/engine.py:212-227 | the same for the pull request |
| Publisher.PublicationCoordinator.ThroughCheck | ai_dlc/publishing/engine.py:228-253 | the same for the check, up to publication |
| Publisher.PublicationCoordinator.StartCandidate | ai_dlc/publishing/engine.py:175-192 | a candidate is begun only on a fresh branch without a pull request, and built once |
| Publisher.PublicationCoordinator.PushCandidate | ai_dlc/publishing/engine.py:198-205 | the push goes out only after its intent and a gate found open since; unobstructed, the branch then is the candidate |
| Publisher.PublicationCoordinator.OpenPull | ai_dlc/publishing/engine.py:213-222 | the pull request is created only after its intent and a gate found open since, on a branch that still is the candidate |
| Publisher.PublicationCoordinator.AddCheck | ai_dlc/publishing/engine.py:228-239 | the check is created only after its intent, with no such check found and the gate found open since |
| Publisher.PublicationCoordinator.Confirm | ai_dlc/publishing/engine.py:240-253 | publication is recorded only with check, gate, branch and cancellation all observed since the last change |
| Publisher.PublicationCoordinator.InvalidateCheck | ai_dlc/publishing/engine.py:121-136 | a known check ends up confirmed as invalidated, or the failure is reported; a check that is out and unmarked is marked if nothing fails; the status never changes |
| Publisher.PublicationCoordinator.Fall | ai_dlc/publishing/engine.py:152-167 | a failure blocks the publication, ends it for good exactly if the remote moved or its basis is gone, and then marks its check |
| Publisher.PublicationCoordinator.Change | ai_dlc/publishing/engine.py:28-38 | a durable change happens entirely or the process is gone |
| PublicationGate.OpenExactly | ai_dlc/publishing/engine.py:45-70 | the gate is open to a publisher exactly for finished, reviewed and checked work on the very files, candidate, basis and notes, of a task in hand whose source, start and approvals stand |
| PublicationGate.FindingEnds | ai_dlc/publishing/engine.py:15-18 | what the gate finds wrong ends the publication exactly if the task is no longer in hand, an approval or the start is gone, or files, candidate or basis are others |
| PublicationGate.LostApprovalEnds | ai_dlc/publishing/engine.py:152-167 | an approval whose comment is gone or reads otherwise, or whose author left the list of one of its roles, ends the publication |
| PublicationGate.VeiledApprovalOnlyBlocks | ai_dlc/publishing/engine.py:15-18 | an approval whose comment was edited, is not a person's or cannot be looked at only blocks it |
| PublicationGate.RunAtGate | ai_dlc/publishing/engine.py:138-167 | a run with nothing in its way but the gate's finding ends the publication exactly if the finding does, and then marks the publication's own check |
| Agent.StepsBounded | ai_dlc/agents/engine.py:285-378 | a run reserves at most two steps for every model call it may make, one for every resume and refresh, and one more |
| Agent.PaidStep | ai_dlc/agents/engine.py:234-378 | each event keeps the account by which consumed model calls, resumes and refreshes pay for the reservations still to come |
| Agent.ReadyMeans | ai_dlc/agents/engine.py:271-283 | ready for a pull request means that each configured command's latest check succeeded on the verified source, the review names that very source without findings, and the repairs are within their limit |
| Agent.EvidencedStep | ai_dlc/agents/engine.py:160-190 | in the review stage the checks are those of the verified source, whatever the model's tools and repairs did before |
| Agent.StrandedForever | ai_dlc/agents/engine.py:292-293 | a step that a crash left in progress is followed by no step, resume or refresh of the loop |
| Agent.ShapedStep | ai_dlc/agents/engine.py:335-378 | a live process is only ever at a point that the stage it reserved allows |
| Agent.StageGraph | ai_dlc/agents/engine.py:145-158 | a run goes on stage by stage, back to the implementation from verification and review only, and back to the requirements only by a refresh of a settled run stopped for certain reasons |
| Agent.StartsMean | ai_dlc/agents/engine.py:309-341 | a step is reserved only on a settled run that is neither blocked nor ready, and reserves its stage; a run resumes only from four reasons |
| AgentLoop.Loop.Step | ai_dlc/agents/engine.py:285-378 | an unfinished step refuses every other; a blocked run and one that may not go on are left with their reason, waiting for a person exactly for four of them; an amended run starts over exactly in the stated states; a settled step advanced the sequence by one and is blocked exactly by its failure or an overspent budget; and with nothing in its way a step takes the run to its next stage, or to ready after review |
| AgentLoop.Loop.Guarded | ai_dlc/agents/engine.py:309-334 | a run whose gate refuses waits for a person or is blocked with that reason, a ready one is left alone, one without budget is blocked, and no step is reserved in these cases |
| AgentLoop.Loop.Reserved | ai_dlc/agents/engine.py:335-378 | a reserved step is settled with its failure or success, or its process died and the reservation stays |
| AgentLoop.Loop.Checks | ai_dlc/agents/engine.py:160-190 | the commands run in order on one source and are appended so; all pass, or the last one failed and exactly one repair is paid |
| AgentLoop.Loop.VerificationStep | ai_dlc/agents/engine.py:342-354 | verification ends in review of exactly the observed source with all commands passed, or back in the implementation with one failed and one repair paid |
| AgentLoop.Loop.ModelRound | ai_dlc/agents/engine.py:234-283 | a round is refused at the limit of calls and consumes exactly one otherwise unless it fails before; it uses tools with every failed check paid, or moves the run to the stage that follows, or records a review; checks as a tool are had in implementation and test generation only |
| AgentLoop.Loop.ReviewRound | ai_dlc/agents/engine.py:271-283 | a review is recorded for the verified source: clean, and the run is ready, or with findings, and one repair is paid on the way back |
| AgentLoop.Loop.ToolChecks | ai_dlc/agents/engine.py:160-190 | checks as a tool append the commands in order on one source, never change the stage, pay exactly one repair for a failure, and fail at the limit |
| AgentLoop.Loop.UseTools | ai_dlc/agents/engine.py:192-258 | over all tool calls of an answer the repairs paid are exactly the checks failed, if nothing fails the step; outside implementation and test generation a call for checks is denied |
| AgentLoop.Loop.ConsumeRepair | ai_dlc/agents/engine.py:222-227 | a repair is counted exactly below the limit, and refused without a change at it |
| AgentLoop.Loop.Recover | ai_dlc/agents/engine.py:380-391 | recovery blocks the run and reissues nothing |
| AgentLoop.Loop.Resume | ai_dlc/agents/engine.py:393-402 | a run resumes exactly if it was stopped for one of four reasons, is settled and its gate is open; only its status and reason change |
| TaskJournal.CommentNamesDiffer | ai_dlc/workflow/engine.py:339-339 | different comments commit under different event identifiers |
| TaskJournal.NewIsLawful | ai_dlc/storage/journal.py:337-347 | an event whose identifier is new to the journal and which passes the reducer is lawful in the task's history; that no comment is handled twice follows from the identifiers |
| TaskJournal.CommentRecorded | ai_dlc/workflow/engine.py:339-340 | every comment handled in a history has a record of its name in the journal |
| TaskJournal.OfferDecided | ai_dlc/storage/journal.py:337-355 | what the journal decides about an event with the workflow's reducer, and that an appended record continues the lawful history |
| TaskJournal.RuleMeans | ai_dlc/storage/journal.py:337-347 | how an offer to a task's journal is ruled, in raw terms: collision, known, conflict of revisions, refusal by the reducer, or the next record |
| TaskJournal.Submit | ai_dlc/workflow/engine.py:183-190 | for every failure of storage the journal afterwards stands for a lawful history: the old one, or the old one with exactly this event, prepared on the present revision; a known event changes nothing, a stale one neither, and a new admissible one goes in if storage works |
| EventProcessor.NamesIdentify | ai_dlc/github/processor.py:36-38 | a record's name tells the delivery it came from |
| EventProcessor.CommitGood | ai_dlc/storage/journal.py:365-369 | a commit to one task keeps every journal and history and adds at most its own record, in a journal where the processor's names belong |
| EventProcessor.StaleAddsNothing | ai_dlc/storage/journal.py:342-343 | an offer prepared on another revision adds nothing, and is answered only if its identifier is known |
| EventProcessor.Service.Put | ai_dlc/storage/journal.py:318-372 | one commit moves the store onward by at most its own record; a recorded event with another content collides, and undisturbed the outcome is exactly what the records and the reducer say |
| EventProcessor.Service.Accept | ai_dlc/github/inbox.py:67-95 | the same delivery again is acknowledged and changes nothing, a different one under its identity is refused, an unpublished one leaves nothing, and after a failure nothing is accepted |
| EventProcessor.Service.Pending | ai_dlc/github/inbox.py:97-118 | the loop lists exactly the stored deliveries without a marker |
| EventProcessor.Service.MarkProcessed | ai_dlc/github/inbox.py:120-143 | a marker is written once and confirmed or refused afterwards, never changed |
| EventProcessor.Service.FollowCommand | ai_dlc/github/processor.py:106-123 | a new comment's command is applied through the journal, or rejected for a final reason; a comment that is gone, edited or not a person's, a lost approval or a missing role has the approvals checked, or the check's own rejection is told |
| EventProcessor.Service.FollowRejection | ai_dlc/github/processor.py:110-123 | a rejection is final or raised; one that reveals a loss leaves the reconciliation recorded, or tells its rejection |
| EventProcessor.Service.ProcessTask | ai_dlc/github/processor.py:85-135 | the source comes first and is then followed by command or reconciliation; a source recorded with another content collides and nothing else is committed |
| EventProcessor.Service.Process | ai_dlc/github/processor.py:53-135 | a replay from any crash, with others committing meanwhile and storage failing anywhere, adds only records planned for this delivery or committed by others, marks it only after what it contributed is in, and, undisturbed, settles it if and only if no step meets a failure that a later replay might not meet; its outcome fits what it did, and undisturbed it leaves exactly the journal its steps come to |
| EventProcessor.DeliveryOnce | ai_dlc/github/processor.py:36-105 | over any deliveries and replays a delivery's source and its reconciliation are each recorded at most once, in the journal of its own task |
| EventProcessor.CommandOnce | ai_dlc/github/processor.py:106-125 | however often a comment is delivered its command is committed at most once |
| EventProcessor.NeverRegained | ai_dlc/workflow/engine.py:339-365 | in every store the service can come to, an approval that was lost is not in force again |
| EventProcessor.Experience | ai_dlc/github/processor.py:50-135 | one delivery, replay, foreign commit or restart loses and changes nothing durable |
| EventProcessor.Serve | ai_dlc/github/processor.py:50-135 | over any mix of deliveries, replays, foreign commits, storage failures and restarts nothing durable is lost or changed, histories stay lawful, no command is committed twice and no lost approval is in force again |
| ReplayCompletion.ReplayAfterEdit | ai_dlc/workflow/engine.py:220-220 | a first replay cut off before its marker, a restart, and a second replay of the edited Issue end in a collision and no marker, though storage works and nobody interferes |
| ReplayCompletion.FirstReplayComesIn | ai_dlc/github/processor.py:85-89 | such a first replay exists for every delivery about a task not seen before |
| ReplayCompletion.RefusalDeterministic | ai_dlc/github/processor.py:13-23 | on the present policy, an unchanged source and observable comments every refusal of a capture, command or reconciliation is one that settles the delivery |
| ReplayCompletion.UnobstructedCompletes | ai_dlc/github/processor.py:53-135 | a replay that reads the Issue as it was recorded, on one policy and content, with every comment observed and named, settles its delivery; so only those failures keep one from settling |
| ReplayLaws.LossIsChecked | ai_dlc/github/processor.py:110-125 | a new comment that is gone, edited or not a person's, or whose command is refused for a lost approval or a missing role, settles with the approvals reconciled: those left stand, and none rests on a lost comment |
| ReplayLaws.ChangeIsChecked | ai_dlc/github/processor.py:95-130 | so does every other event of a comment, and of the Issue but its closing |
| ReplayLaws.CommandTakesEffect | ai_dlc/github/processor.py:106-125 | a new comment whose command the workflow accepts takes effect by its replay, once: the delivery settles and the task is what the command makes of it; a comment handled before changes nothing |
| ReplayLaws.FaultsMean | ai_dlc/github/processor.py:106-118 | nothing is wrong with a comment exactly if it is a person's unedited comment that gives a command, and otherwise with which fault it is rejected |
| ReplayLaws.ClosingAddsNothing | ai_dlc/github/processor.py:93-98 | the closing of an Issue is recorded as its source and nothing else |
| ReplayLaws.OtherRefusalsAddNothing | ai_dlc/github/processor.py:106-123 | a command refused for any other reason adds nothing to the source |
| ReplayLaws.ReplayLostComment | ai_dlc/github/processor.py:53-135 | one undisturbed replay of the delivery of a comment edited or deleted since settles it, and no approval of that comment is in force |
| Workspace.ReplayHunk | ai_dlc/execution/file_tools.py:241-266 | reading and applying a hunk line by line gives what applying the parsed hunk gives |
| Workspace.ReplayFile | ai_dlc/execution/file_tools.py:231-269 | so does reading and applying all hunks of a file, for the accepted and the refused |
| Workspace.ParsePatch | ai_dlc/execution/file_tools.py:206-278 | the whole reading loop yields exactly the edits of the sections the text stands for, or refuses |
| Workspace.WorkspaceTools.BeginCommand | ai_dlc/execution/file_tools.py:185-195 | the workspace is leased to one command at a time and only in the expected state |
| Workspace.WorkspaceTools.EndCommand | ai_dlc/execution/file_tools.py:192-195 | the lease ends whatever the command did |
| Workspace.WorkspaceTools.ApplyPatch | ai_dlc/execution/file_tools.py:299-353 | a refused diff changes nothing, an accepted one gives exactly the projected tree and lists, and a failure of the storage leaves a prefix of the edits |
| WorkspaceLaws.GrantedExactly | ai_dlc/execution/file_tools.py:299-333 | a diff is applied, and as exactly these edits, if and only if no command has the workspace, the tree is the expected one, the text is a diff within its bounds, the request names exactly the edited files with their present digests, and the result fits the workspace |
| WorkspaceLaws.TextExactly | ai_dlc/execution/file_tools.py:206-278 | a text stands for these edits if and only if it is, within its bounds, a diff of sections that give them, about files that differ on every file system |
| WorkspaceLaws.EditExactly | ai_dlc/execution/file_tools.py:214-274 | the edit of a section: one permitted path, the file as it is or nothing before, and what the hunks make of it after, within the size of a file |
| WorkspaceLaws.ExpectedExactly | ai_dlc/execution/file_tools.py:308-320 | the expectations hold if and only if every named file is edited and every edited file is named last with its present digest |
| Workspace.ProjectChanges | ai_dlc/execution/file_tools.py:321-326 | files no edit names keep their content and each edited file has exactly what its edit says |
| Workspace.SwappedDiffRestores | ai_dlc/execution/file_tools.py:206-278 | for every accepted diff that changes files the swapped diff is accepted on the result and gives the original tree back |
| Workspace.SwappedTextRestores | ai_dlc/execution/file_tools.py:206-278 | the swapped diff can be printed, and reading that text on the result, size permitting, gives the original tree back |
| Workspace.CreationUndone | ai_dlc/execution/file_tools.py:224-228 | undoing a creation restores the tree if and only if no file was at its path |
| Workspace.DeletionUndone | ai_dlc/execution/file_tools.py:269-270 | undoing a deletion restores the tree if and only if its hunks have no new lines and their old lines are all lines of the file |
| Patch.ApplyExact | ai_dlc/execution/file_tools.py:231-269 | hunks turn a file into a result if and only if both are the same gaps around the hunks' old and new lines, each addressed where it stands |
| Patch.ApplySplits | ai_dlc/execution/file_tools.py:240-269 | the gaps of an accepted edit exist and alternate with its hunks in both versions |
| Patch.SwapUndoes | ai_dlc/execution/file_tools.py:231-269 | the swapped hunks with recomputed starts fit the new lines and give the old lines back |
| Patch.LeavesNothing | ai_dlc/execution/file_tools.py:231-269 | accepted hunks leave an empty file if and only if they have no new lines and their old lines are as many as the file's |
| PatchText.PrintThenParse | ai_dlc/execution/file_tools.py:206-278 | printing any list of sections and reading it gives the list, even when a removed line looks like a file header |
| PatchStrict.DiffsExactly | ai_dlc/execution/file_tools.py:206-278 | a text is read as a diff, and as exactly these sections, if and only if every line is a header or a hunk line, every hunk has the lines its header counts, and nothing is left over |
| PatchStrict.HeadersExactly | ai_dlc/execution/file_tools.py:27-27 | a line is read as a hunk header if and only if it is one, with counts of one left out or not and nothing after them but a heading |
| PatchStrict.HeaderPathExactly | ai_dlc/execution/file_tools.py:197-204 | a header line names a path if and only if the text up to a tab, without trailing newlines, has the prefix and a permitted form, and none exactly for the null path |
| Decimal.RenderThenValue | ai_dlc/execution/file_tools.py:238-239 | a printed line number reads as itself |
| RsaKey.ReadTlvComplete | ai_dlc/github/auth.py:28-45 | every element with a one-byte or up to four-byte length is read as its content, wherever it stands |
| RsaKey.ReadTlvSound | ai_dlc/github/auth.py:28-45 | what is read as an element is one |
| RsaKey.IntegerContentUnique | ai_dlc/github/auth.py:48-54 | an accepted integer content is the shortest one of its number |
| RsaKey.RsaComponentsExact | ai_dlc/github/auth.py:57-81 | a key is returned if and only if the bytes are an encoding of that key, plain or wrapped, within the bounds |
| RsaKey.BoundsMean | ai_dlc/github/auth.py:79-81 | the bounds in numbers: a modulus of at least 2 to the 2047th, an odd public exponent of at least three, a private one of at least two |
| RsaKey.Pkcs1Complete | ai_dlc/github/auth.py:57-81 | a PKCS#1 key is read back as exactly its three numbers |
| RsaKey.Pkcs8Complete | ai_dlc/github/auth.py:64-75 | so is one in the PKCS#8 wrapping, whatever its algorithm identifier |
| RsaKey.DerRoundTrip | ai_dlc/github/auth.py:57-81 | writing a key and reading it gives the key, in both formats |
| RsaSignature.EncodedFits | ai_dlc/github/auth.py:111-116 | the padded message has exactly the modulus length and is below the modulus |
| RsaSignature.EncodedInjective | ai_dlc/github/auth.py:116-116 | different hashes have different padded messages |
| RsaSignature.EncodedBytes | ai_dlc/github/auth.py:111-116 | the padded message byte by byte: 0x00 0x01, as many 0xff as fill the modulus, 0x00, and the DER of SHA-256's DigestInfo: its object identifier, NULL and the hash as an OCTET STRING |
| RsaSignature.SignatureVerifies | ai_dlc/github/auth.py:110-120 | a returned signature has the modulus length, is below the modulus, and verifies for the signed hash and no other |
| RsaSignature.SignsExactly | ai_dlc/github/auth.py:110-120 | signing succeeds if and only if the modulus has room and the exponents undo each other on this message |
| RsaSignature.ParsedKeyCanEncode | ai_dlc/github/auth.py:79-115 | every parsed key has room for the padding |
| JUnit.Parse | ai_dlc/execution/junit.py:36-73 | the stack loop returns totals exactly for the acceptable trees, and they are the recursive totals of the tree's testcases |
| JUnit.AcceptableTrees | ai_dlc/execution/junit.py:45-70 | a report is acceptable if and only if it is a suite within 50000 elements and 32 levels that nests only named testcases of one outcome into suites and suites into suites, each declaring the true numbers if any |
| JUnit.FlatSuiteAccepted | ai_dlc/execution/junit.py:45-71 | a suite of named testcases of one outcome each is accepted and counts them all |
| JUnit.Collect | ai_dlc/execution/junit.py:76-89 | evidence is collected exactly within the bounds on number and size, and its totals are those of all reports |
| JUnit.PopPush | ai_dlc/execution/junit.py:50-55 | taking one element off the stack and pushing its children accounts for exactly that element |
| JUnit.PassedMeaning | ai_dlc/execution/junit.py:19-25 | passed holds if and only if no testcase of any report failed or errored and at least one was not skipped |
| JUnit.DeclaredCountsAreTrue | ai_dlc/execution/junit.py:63-70 | in an accepted report every suite at any depth declares only the counts of its own subtree |
| JUnit.OutcomesBounded | ai_dlc/execution/junit.py:59-62 | failures, errors and skips together never outnumber the testcases |

## Left out

- Sockets, TLS, HTTP, git, the native helper, subprocesses, platform locking and power loss of unsynced directory entries: the outside is an oracle, a publication is atomic, and a crash loses only what is volatile.
- SHA-256, JSON, base64, PEM, regular expressions and XML syntax: the digest is a function, injective only where a lemma says so; keys start from DER bytes, diffs from newline-terminated lines, reports from element trees.
- Equal truncations of two delivery digests: a delivery is identified by the 32 digits that name its records; damaged inbox files and their size limit are not modelled, because both end in a refusal that changes nothing.
- Configuration loading, runtime profiles, routing, context and output limits, binding of sessions to provider definitions, argument schemas: long lists of independent checks, each settled by one branch.
- Wall-clock time: elapsed seconds, deadlines, grace and retry delays are observations; that a retry waits until its recorded time is not modelled.
- Status comments, rendered documents, reports, the knowledge ranking, snapshots of the scheduler for display, sorting of returned identities and paths: presentation.
- Workspace paths: policy, case folding and tree digests are parameters; the codes of refused diffs are collapsed into one refusal, and decimal digits outside ASCII in hunk headers are not read.
- Workspace.WorkspaceTools.ApplyPatch: a target that another process changes between the check and the write is not modelled, because the model has one writer.
- Several processes on one store: the instance lock is taken as given, so one publisher at a time runs per task.
- Journal.FileJournal.Commit: the timestamp is part of the request, because the clock is outside.
- Execution.FailedRunBlocks: assumes that no driver whose grace ran out rewrites the run, because `LateOutcome.EndedRunRewritten` shows that such a rewrite can open the gate.
- Agent.StrandedForever: says nothing about how an operator leaves such a state, because the loop has no way out of it.
- The JSON form of a task's state, of an Issue and of a comment: a task's state is written by any function that loses nothing, and a comment's document stands for itself by its digest.
- A permission that cannot be looked up: it is modelled as a comment that cannot be observed; both refuse the event with a code that revokes nothing.
- EventProcessor.Service.Process: the reconciliation of a repository scope is one answer, because it belongs to the installation's own code.
- Publisher.PublicationCoordinator.Run: the contents of candidate, documents, pull request and check are reduced to whether they are the expected ones.
- Knowledge, evaluation, demos, the command line and the HTTP service: they would add only easy members.
