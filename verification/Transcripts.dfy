/** The transcript check of a model request: which tool calls are still waiting
    for their result, and which call identities were ever used. */
module Transcripts {
  datatype Call = Call(id: string, name: string, arguments: string)

  datatype Message = System(text: string) | User(text: string)
                   | Assistant(text: string, calls: seq<Call>) | ToolResult(callId: string, text: string)

  datatype Scan = Broken | Scan(pending: set<string>, seen: set<string>)

  function CallsOf(m: Message): seq<Call> {
    if m.Assistant? then m.calls else []
  }

  function CallIds(calls: seq<Call>): set<string> {
    set i | 0 <= i < |calls| :: calls[i].id
  }

  predicate DistinctCalls(calls: seq<Call>) {
    forall i, j :: 0 <= i < j < |calls| ==> calls[i].id != calls[j].id
  }

  /** The message by itself: a result answers a waiting call, and nothing else may
      come while a call is waiting. */
  function Received(scan: Scan, m: Message): Scan {
    if scan.Broken? then Broken
    else if m.ToolResult? then
      if m.callId in scan.pending then scan.(pending := scan.pending - {m.callId}) else Broken
    else if scan.pending == {} then scan else Broken
  }

  /** The first `n` calls of a message: an identity is never used twice. */
  function Requested(scan: Scan, calls: seq<Call>, n: nat): Scan
    requires n <= |calls|
  {
    if n == 0 then scan else
    var before := Requested(scan, calls, n - 1);
    if before.Broken? || calls[n - 1].id in before.seen then Broken
    else Scan(before.pending + {calls[n - 1].id}, before.seen + {calls[n - 1].id})
  }

  function Next(scan: Scan, m: Message): Scan {
    Requested(Received(scan, m), CallsOf(m), |CallsOf(m)|)
  }

  function Scanned(messages: seq<Message>, n: nat): Scan
    requires n <= |messages|
  {
    if n == 0 then Scan({}, {}) else Next(Scanned(messages, n - 1), messages[n - 1])
  }

  function Whole(messages: seq<Message>): Scan {
    Scanned(messages, |messages|)
  }

  predicate Accepts(messages: seq<Message>) {
    messages != [] && Whole(messages).Scan? && Whole(messages).pending == {}
  }

  lemma {:induction false} BrokenCalls(calls: seq<Call>, n: nat)
    requires n <= |calls|
    ensures Requested(Broken, calls, n).Broken?
  {
    if n > 0 {
      BrokenCalls(calls, n - 1);
    }
  }

  lemma {:induction false} CallsStayBroken(scan: Scan, calls: seq<Call>, i: nat, n: nat)
    requires i <= n <= |calls| && Requested(scan, calls, i).Broken?
    ensures Requested(scan, calls, n).Broken?
  {
    if i < n {
      CallsStayBroken(scan, calls, i, n - 1);
    }
  }

  lemma NextOfBroken(m: Message)
    ensures Next(Broken, m).Broken?
  {
    BrokenCalls(CallsOf(m), |CallsOf(m)|);
  }

  lemma {:induction false} StaysBroken(messages: seq<Message>, i: nat, n: nat)
    requires i <= n <= |messages| && Scanned(messages, i).Broken?
    ensures Scanned(messages, n).Broken?
  {
    hide Next;
    if i < n {
      StaysBroken(messages, i, n - 1);
      NextOfBroken(messages[n - 1]);
    }
  }

  /** The loop of the check, over messages and over the calls of each. */
  method Check(messages: seq<Message>) returns (accepted: bool)
    ensures accepted <==> Accepts(messages)
  {
    hide Scanned, Requested, Received;
    if messages == [] {
      return false;
    }
    var pending: set<string>, seen: set<string> := {}, {};
    NothingScanned(messages);
    var i := 0;
    while i < |messages|
      invariant i <= |messages| && Scanned(messages, i) == Scan(pending, seen)
    {
      var m := messages[i];
      ghost var before := Scan(pending, seen);
      OneScanned(messages, i);
      ReceivedMeans(before, m);
      if m.ToolResult? {
        if m.callId !in pending {
          NextOfBrokenReceipt(before, m);
          StaysBroken(messages, i + 1, |messages|);
          return false;
        }
        pending := pending - {m.callId};
      } else if pending != {} {
        NextOfBrokenReceipt(before, m);
        StaysBroken(messages, i + 1, |messages|);
        return false;
      }
      var calls := CallsOf(m);
      ghost var received := Scan(pending, seen);
      NoneRequested(received, calls);
      var k := 0;
      while k < |calls|
        invariant k <= |calls| && Requested(received, calls, k) == Scan(pending, seen)
      {
        OneRequested(received, calls, k);
        if calls[k].id in seen {
          CallsStayBroken(received, calls, k + 1, |calls|);
          StaysBroken(messages, i + 1, |messages|);
          return false;
        }
        seen := seen + {calls[k].id};
        pending := pending + {calls[k].id};
        k := k + 1;
      }
      i := i + 1;
    }
    accepted := pending == {};
  }

  lemma NothingScanned(messages: seq<Message>)
    ensures Scanned(messages, 0) == Scan({}, {})
  {
  }

  lemma OneScanned(messages: seq<Message>, i: nat)
    requires i < |messages|
    ensures Scanned(messages, i + 1) == Next(Scanned(messages, i), messages[i])
  {
  }

  lemma NoneRequested(scan: Scan, calls: seq<Call>)
    ensures Requested(scan, calls, 0) == scan
  {
  }

  lemma OneRequested(scan: Scan, calls: seq<Call>, k: nat)
    requires k < |calls|
    ensures var before := Requested(scan, calls, k);
            Requested(scan, calls, k + 1) ==
              if before.Broken? || calls[k].id in before.seen then Broken
              else Scan(before.pending + {calls[k].id}, before.seen + {calls[k].id})
  {
  }

  lemma ReceivedMeans(scan: Scan, m: Message)
    requires scan.Scan?
    ensures Received(scan, m) ==
              if m.ToolResult? then
                if m.callId in scan.pending then Scan(scan.pending - {m.callId}, scan.seen) else Broken
              else if scan.pending == {} then scan else Broken
  {
  }

  lemma NextOfBrokenReceipt(scan: Scan, m: Message)
    requires Received(scan, m).Broken?
    ensures Next(scan, m).Broken?
  {
    BrokenCalls(CallsOf(m), |CallsOf(m)|);
  }

  // ---- Extending a transcript ----

  lemma {:induction false} ScannedPrefix(messages: seq<Message>, m: Message, n: nat)
    requires n <= |messages|
    ensures Scanned(messages + [m], n) == Scanned(messages, n)
  {
    hide Next;
    if n > 0 {
      ScannedPrefix(messages, m, n - 1);
    }
  }

  lemma WholeOneMore(messages: seq<Message>, m: Message)
    ensures Whole(messages + [m]) == Next(Whole(messages), m)
  {
    hide Next, Scanned;
    ScannedPrefix(messages, m, |messages|);
    OneScanned(messages + [m], |messages|);
  }

  function FirstIds(calls: seq<Call>, n: nat): set<string>
    requires n <= |calls|
  {
    set i | 0 <= i < n :: calls[i].id
  }

  lemma {:induction false} FreshCalls(scan: Scan, calls: seq<Call>, n: nat)
    requires scan.Scan? && n <= |calls| && DistinctCalls(calls) && CallIds(calls) !! scan.seen
    ensures Requested(scan, calls, n) == Scan(scan.pending + FirstIds(calls, n), scan.seen + FirstIds(calls, n))
  {
    if n > 0 {
      FreshCalls(scan, calls, n - 1);
      assert FirstIds(calls, n) == FirstIds(calls, n - 1) + {calls[n - 1].id};
      assert calls[n - 1].id in CallIds(calls) && calls[n - 1].id !in FirstIds(calls, n - 1);
    }
  }

  /** An answer with new call identities leaves exactly those waiting. */
  lemma AfterAnswer(messages: seq<Message>, text: string, calls: seq<Call>)
    requires Whole(messages).Scan? && Whole(messages).pending == {}
    requires DistinctCalls(calls) && CallIds(calls) !! Whole(messages).seen
    ensures Whole(messages + [Assistant(text, calls)]) == Scan(CallIds(calls), Whole(messages).seen + CallIds(calls))
  {
    hide Requested, Scanned, CallIds, DistinctCalls, Whole;
    WholeOneMore(messages, Assistant(text, calls));
    FreshCalls(Whole(messages), calls, |calls|);
    AllIds(calls);
  }

  lemma AllIds(calls: seq<Call>)
    ensures FirstIds(calls, |calls|) == CallIds(calls)
  {
  }

  lemma AfterResult(messages: seq<Message>, callId: string, text: string)
    requires Whole(messages).Scan? && callId in Whole(messages).pending
    ensures Whole(messages + [ToolResult(callId, text)]) == Scan(Whole(messages).pending - {callId}, Whole(messages).seen)
  {
    hide Scanned, Whole;
    WholeOneMore(messages, ToolResult(callId, text));
  }

  lemma Opening(prompt: string, checkpoint: string)
    ensures Whole([System(prompt), User(checkpoint)]) == Scan({}, {})
  {
    hide Scanned, Whole;
    WholeOneMore([System(prompt)], User(checkpoint));
    WholeOneMore([], System(prompt));
    assert [] + [System(prompt)] == [System(prompt)];
    assert [System(prompt)] + [User(checkpoint)] == [System(prompt), User(checkpoint)];
    NothingWhole();
  }

  lemma NothingWhole()
    ensures Whole([]) == Scan({}, {})
  {
  }
}
