/** What each change of a model run means to those who ask for it: when it is
    accepted, what it excludes until it is settled, and what nothing changes after. */
module SessionLaws {
  import opened Results
  import opened Transcripts
  import opened Sessions

  predicate Quiet(run: Run) {
    OpenRequests(run) == {} && Unfinished(run) == {}
  }

  lemma QuietMeans(run: Run)
    ensures OpenRequests(run) == {} <==> forall id <- run.requests :: !IsOpen(run.requests[id])
    ensures Unfinished(run) == {} <==> forall id <- run.tools :: run.tools[id].status.Done?
  {
    assert forall id <- run.requests :: IsOpen(run.requests[id]) ==> id in OpenRequests(run);
    assert forall id <- run.tools :: !run.tools[id].status.Done? ==> id in Unfinished(run);
  }

  // ---- Sessions ----

  /** A new session opens exactly on a quiet run; it becomes the active one with a
      transcript that may be sent, and nothing that was there moves. Opening it
      again is granted with whatever prompt, changes nothing, and is refused for
      another definition. */
  lemma SessionOpensOnce(run: Run, id: string, definition: string, prompt: string, checkpoint: string,
                         again: string, prompt': string, checkpoint': string)
    requires id !in run.sessions
    ensures OpenSession(run, id, definition, prompt, checkpoint).Next? <==> Quiet(run)
    ensures Quiet(run) ==>
              var next := OpenSession(run, id, definition, prompt, checkpoint).run;
              && next.activeSession == Some(id) && id in next.sessions && Accepts(next.sessions[id].messages)
              && next == run.(sessions := next.sessions, activeSession := next.activeSession)
              && next.sessions - {id} == run.sessions
              && OpenSession(next, id, again, prompt', checkpoint')
                 == if again == definition then Next(next) else Refuse(SessionChanged)
  {
    hide Unfinished, OpenRequests, Whole;
    Transcripts.Opening(prompt, checkpoint);
    assert run.sessions[id := Session(definition, [System(prompt), User(checkpoint)])] - {id} == run.sessions;
  }

  /** A session left for another one is not opened again. */
  lemma SessionLeftForGood(run: Run, id: string, other: string, definition: string, prompt: string, checkpoint: string,
                           definition': string)
    requires id in run.sessions && other !in run.sessions && id != other
    requires OpenSession(run, other, definition, prompt, checkpoint).Next?
    ensures OpenSession(OpenSession(run, other, definition, prompt, checkpoint).run, id, definition', prompt, checkpoint)
         == Refuse(SessionChanged)
  {
  }

  // ---- Attempts ----

  /** The request is new, or waits for another attempt on the same terms. */
  predicate Attemptable(run: Run, id: string, identity: Identity) {
    id in run.requests ==> run.requests[id].status.RetryWait? && run.requests[id].identity == identity
  }

  function Attempts(run: Run, id: string): nat {
    if id in run.requests then run.requests[id].attempt else 0
  }

  /** For a driver that read the run as it is, an attempt is reserved exactly if the
      request may be attempted in the active session, nothing else is going on, and
      both budgets and the retries last. The transcript needs no further check: on
      such a run it is always in order. */
  lemma AttemptReserved(run: Run, id: string, identity: Identity, seen: Session)
    requires Inv(run) && Lookup(run.sessions, identity.session) == Some(seen)
    ensures Reserve(run, id, identity, seen, Lookup(run.requests, id)).Next? <==>
              && Attemptable(run, id, identity) && run.activeSession == Some(identity.session)
              && Unfinished(run) == {} && OpenRequests(run) <= {id}
              && run.modelCalls < run.limits.modelCalls
              && run.activeSeconds + identity.timeout <= run.limits.activeSeconds
              && Attempts(run, id) < run.limits.retryAttempts
  {
    hide Accepts, Whole, OneAtATime, WithinBudget, Connected, Faithful, Unfinished, OpenRequests;
    if Unfinished(run) == {} {
      hide Inv;
      InOrder(run, identity.session);
    }
    assert OpenRequests(run) - {id} == {} <==> OpenRequests(run) <= {id};
  }

  /** A driver that read something else than what is there gets no attempt: the
      session must be the active one with the transcript it read, and the request as it
      read it, new or waiting for a retry on the same terms. */
  lemma StaleDriverRefused(run: Run, id: string, identity: Identity, seen: Session, existing: Option<Request>)
    requires Reserve(run, id, identity, seen, existing).Next?
    ensures run.activeSession == Some(identity.session)
    ensures identity.session in run.sessions && run.sessions[identity.session] == seen
    ensures existing == (if id in run.requests then Some(run.requests[id]) else None) && Attemptable(run, id, identity)
    ensures forall t <- run.tools :: run.tools[t].status.Done?
  {
    hide Accepts, OpenRequests;
    QuietMeans(run);
  }

  lemma InOrder(run: Run, session: string)
    requires Inv(run) && Unfinished(run) == {} && session in run.sessions
    ensures Accepts(run.sessions[session].messages)
  {
    hide Inv, Accepts, Unfinished;
    TranscriptAccepted(run, session);
  }

  /** A reserved attempt is charged in full and shuts everything else out: whatever a
      driver has read, no attempt is reserved, no new session opened and no tool
      claimed while it is out. */
  lemma AttemptShutsOut(run: Run, id: string, identity: Identity, seen: Session, existing: Option<Request>,
                        other: string, identity': Identity, seen': Session, existing': Option<Request>, another: string, definition: string,
                        prompt: string, checkpoint: string, tool: string)
    requires Inv(run) && Reserve(run, id, identity, seen, existing).Next?
    ensures var next := Reserve(run, id, identity, seen, existing).run;
            && next.modelCalls == run.modelCalls + 1 && next.activeSeconds == run.activeSeconds + identity.timeout
            && id in next.requests && next.requests[id] == Request(identity, Pending, Attempts(run, id) + 1, None)
            && (next.sessions, next.tools) == (run.sessions, run.tools)
            && Reserve(next, other, identity', seen', existing').Refuse?
            && (another !in next.sessions ==> OpenSession(next, another, definition, prompt, checkpoint).Refuse?)
            && Claim(next, tool).Refuse?
  {
    hide Accepts, Faithful, WithinBudget, Connected, OneAtATime;
    var next := Reserve(run, id, identity, seen, existing).run;
    assert id in OpenRequests(next);
    assert id != other ==> id in OpenRequests(next) - {other};
    QuietMeans(run);
  }

  /** A failure is recorded exactly once, of the pending request. Reserving and
      failing come to one call and the seconds that went by, whatever was reserved,
      and leave transcripts and tools alone. */
  lemma AttemptFailed(run: Run, id: string, identity: Identity, seen: Session, existing: Option<Request>, elapsed: nat, f: Failure,
                      elapsed': nat, f': Failure)
    requires Reserve(run, id, identity, seen, existing).Next?
    ensures var failed := Fail(Reserve(run, id, identity, seen, existing).run, id, elapsed, f);
            && failed.Next?
            && failed.run == run.(modelCalls := run.modelCalls + 1, activeSeconds := run.activeSeconds + elapsed,
                                  requests := run.requests[id := failed.run.requests[id]])
            && (failed.run.requests[id].status.RetryWait? <==>
                  f.retryable && f.effectNone && f.delay.Some? && 0 <= f.delay.value <= 60
                  && Attempts(run, id) + 1 < run.limits.retryAttempts)
            && Fail(failed.run, id, elapsed', f').Refuse?
  {
    hide Accepts, Unfinished, OpenRequests;
  }

  lemma FailOnlyPending(run: Run, id: string, elapsed: nat, f: Failure)
    ensures Fail(run, id, elapsed, f).Next? <==> id in run.requests && run.requests[id].status.Pending?
  {
    hide Retries;
  }

  /** An answer is recorded exactly for the pending request, if its calls are new to
      the run. Then the answer, its place in the transcript and a ready tool for each
      call are there together; the request is settled, and the first tool may be
      claimed, if there is one and the budget lasts, but no attempt reserved. */
  lemma AnswerOffersTools(run: Run, id: string, text: string, calls: seq<Call>, elapsed: nat, tool: string,
                          identity: Identity, other: string)
    requires Inv(run) && DistinctCalls(calls)
    ensures Complete(run, id, text, calls, elapsed).Next? <==>
              id in run.requests && run.requests[id].status.Pending? && CallIds(calls) !! run.tools.Keys
    ensures Complete(run, id, text, calls, elapsed).Next? ==>
              var next := Complete(run, id, text, calls, elapsed).run;
              var session := run.requests[id].identity.session;
              && next.requests[id].status.Completed? && next.requests[id].answer == Some(Answer(text, calls))
              && session in run.sessions && session in next.sessions
              && next.sessions[session].messages == run.sessions[session].messages + [Assistant(text, calls)]
              && next.tools.Keys == run.tools.Keys + CallIds(calls)
              && (forall t <- CallIds(calls) :: next.tools[t].session == session && next.tools[t].status.Ready?)
              && (tool in CallIds(calls) ==>
                    && (Claim(next, tool).Next? <==> next.toolCalls < next.limits.toolCalls)
                    && Reserve(next, other, identity, next.sessions[session], Lookup(next.requests, other)).Refuse?)
  {
    hide Accepts, NewTools, CallIds, DistinctCalls, Faithful, WithinBudget, Retries, OneAtATime;
    if Complete(run, id, text, calls, elapsed).Next? {
      var session := run.requests[id].identity.session;
      var next := Complete(run, id, text, calls, elapsed).run;
      AddedTools(run.tools, session, calls);
      Answered(run, id);
      QuietMeans(run);
      if tool in CallIds(calls) {
        assert tool in Unfinished(next);
        assert ClaimedTools(next) == {};
      }
    }
  }

  lemma Answered(run: Run, id: string)
    requires Inv(run) && id in run.requests && run.requests[id].status.Pending?
    ensures Unfinished(run) == {} && run.requests[id].identity.session in run.sessions
  {
    hide Faithful, WithinBudget;
    OpenMeansFinished(run, id);
  }

  /** A request that is answered, failed for good or abandoned never changes again. */
  lemma SettledForever(run: Run, id: string, c: Change)
    requires id in run.requests && !IsOpen(run.requests[id]) && Apply(run, c).Next?
    ensures id in Apply(run, c).run.requests && Apply(run, c).run.requests[id] == run.requests[id]
  {
    hide Accepts, NewTools, CallIds, Retries, OpenRequests, Unfinished, ClaimedTools, Append;
  }

  /** Only an open request is abandoned. It is settled by that, with its charge left
      standing, and a waiting retry no longer keeps the run from other work. */
  lemma AbandonedRequest(run: Run, id: string)
    requires OneAtATime(run)
    ensures Abandon(run, id).Next? <==> id in OpenRequests(run)
    ensures Abandon(run, id).Next? ==>
              var next := Abandon(run, id).run;
              && next == run.(requests := next.requests) && next.requests - {id} == run.requests - {id}
              && !IsOpen(next.requests[id]) && next.requests[id].attempt == run.requests[id].attempt
              && Quiet(next)
  {
    if Abandon(run, id).Next? {
      var next := Abandon(run, id).run;
      OpenMeansFinished(run, id);
      QuietMeans(next);
      assert Unfinished(next) == Unfinished(run);
      forall other <- next.requests
        ensures !IsOpen(next.requests[other])
      {
        assert other != id ==> other !in OpenRequests(run);
      }
    }
  }

  // ---- Tools ----

  /** A tool is claimed exactly if it is ready, no other one is at work, and the
      budget lasts; then no tool is claimed at all until this one is finished. */
  lemma ClaimExcludes(run: Run, tool: string, other: string, text: string, digest: string)
    ensures Claim(run, tool).Next? <==>
              tool in run.tools && run.tools[tool].status.Ready? && ClaimedTools(run) == {} && run.toolCalls < run.limits.toolCalls
    ensures Claim(run, tool).Next? ==>
              var next := Claim(run, tool).run;
              && Claim(next, other).Refuse? && next.toolCalls == run.toolCalls + 1
              && next == run.(toolCalls := next.toolCalls, tools := run.tools[tool := run.tools[tool].(status := Claimed)])
              && Finish(next, tool, text, digest).Next?
              && ClaimedTools(Finish(next, tool, text, digest).run) == {}
  {
    hide Append;
    if Claim(run, tool).Next? {
      var next := Claim(run, tool).run;
      assert tool in ClaimedTools(next);
      ClaimsOver(run, tool, text, digest);
    }
  }

  lemma ClaimsOver(run: Run, tool: string, text: string, digest: string)
    requires Claim(run, tool).Next?
    ensures var done := Finish(Claim(run, tool).run, tool, text, digest); done.Next? && ClaimedTools(done.run) == {}
  {
    hide Append;
    var done := Finish(Claim(run, tool).run, tool, text, digest).run;
    forall id <- ClaimedTools(done)
      ensures id in ClaimedTools(run)
    {
    }
  }

  /** A result is recorded exactly for the claimed tool, or repeated with the same
      digest, and is told once: repeating it changes nothing, with whatever text, and
      another digest is refused. */
  lemma ResultToldOnce(run: Run, tool: string, text: string, digest: string, text': string, digest': string)
    ensures Finish(run, tool, text, digest).Next? <==>
              tool in run.tools && (run.tools[tool].status.Claimed? || run.tools[tool].status == Done(digest))
    ensures Finish(run, tool, text, digest).Next? ==>
              var next := Finish(run, tool, text, digest).run;
              && tool in next.tools && next.tools[tool].status == Done(digest)
              && next == run.(tools := next.tools, sessions := next.sessions) && next.tools - {tool} == run.tools - {tool}
              && Finish(next, tool, text', digest') == (if digest' == digest then Next(next) else Refuse(ToolCollision))
              && (run.tools[tool].status.Claimed? && run.tools[tool].session in run.sessions ==>
                    next.sessions[run.tools[tool].session].messages
                    == run.sessions[run.tools[tool].session].messages + [ToolResult(tool, text)])
  {
  }
}
