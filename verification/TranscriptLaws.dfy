/** What the check of a transcript accepts, said of the messages and their places. */
module TranscriptLaws {
  import opened Transcripts

  /** One of the first `n` messages makes a call with this identity. */
  ghost predicate Called(messages: seq<Message>, n: nat, id: string)
    requires n <= |messages|
  {
    exists k, i :: 0 <= k < n && CallAt(messages[k], i, id)
  }

  predicate CallAt(m: Message, i: int, id: string) {
    m.Assistant? && 0 <= i < |m.calls| && m.calls[i].id == id
  }

  /** One of the first `n` messages is the result of the call with this identity. */
  ghost predicate Answered(messages: seq<Message>, n: nat, id: string)
    requires n <= |messages|
  {
    exists k :: 0 <= k < n && AnswerAt(messages[k], id)
  }

  predicate AnswerAt(m: Message, id: string) {
    m.ToolResult? && m.callId == id
  }

  /** A result comes after its call and once; anything else only while every call made
      before has its result, and its calls have identities never used before. */
  ghost predicate Placed(messages: seq<Message>, k: nat)
    requires k < |messages|
  {
    if messages[k].ToolResult? then
      Called(messages, k, messages[k].callId) && !Answered(messages, k, messages[k].callId)
    else
      && (forall id :: Called(messages, k, id) ==> Answered(messages, k, id))
      && NewCalls(messages, k)
  }

  ghost predicate NewCalls(messages: seq<Message>, k: nat)
    requires k < |messages|
  {
    messages[k].Assistant? ==>
      var calls := messages[k].calls;
      && (forall i :: 0 <= i < |calls| ==> !Called(messages, k, calls[i].id))
      && (forall i, j :: 0 <= i < j < |calls| ==> calls[i].id != calls[j].id)
  }

  ghost predicate AllPlaced(messages: seq<Message>, n: nat)
    requires n <= |messages|
  {
    forall k :: 0 <= k < n ==> Placed(messages, k)
  }

  /** What the scan remembers: the calls made, and those without a result. */
  ghost predicate Remembers(messages: seq<Message>, n: nat, scan: Scan)
    requires n <= |messages|
  {
    && scan.Scan?
    && (forall id :: id in scan.seen <==> Called(messages, n, id))
    && (forall id :: id in scan.pending <==> Called(messages, n, id) && !Answered(messages, n, id))
  }

  lemma {:induction false} RequestedFails(scan: Scan, calls: seq<Call>, n: nat)
    requires n <= |calls| && Requested(scan, calls, n).Scan?
    ensures scan.Scan? && Requested(scan, calls, n).seen == scan.seen + FirstIds(calls, n)
    ensures forall i :: 0 <= i < n ==> calls[i].id !in scan.seen
    ensures forall i, j :: 0 <= i < j < n ==> calls[i].id != calls[j].id
  {
    if n > 0 {
      RequestedFails(scan, calls, n - 1);
      assert FirstIds(calls, n) == FirstIds(calls, n - 1) + {calls[n - 1].id};
      assert forall i :: 0 <= i < n - 1 ==> calls[i].id in FirstIds(calls, n - 1);
    }
  }

  /** The next message is taken exactly if it is in its place. */
  lemma OneTaken(messages: seq<Message>, n: nat, scan: Scan)
    requires n < |messages| && Remembers(messages, n, scan)
    requires forall id :: Answered(messages, n, id) ==> Called(messages, n, id)
    ensures Next(scan, messages[n]).Scan? <==> Placed(messages, n)
    ensures Placed(messages, n) ==> Remembers(messages, n + 1, Next(scan, messages[n]))
  {
    hide Called, Answered;
    var m := messages[n];
    var calls := CallsOf(m);
    CalledNext(messages, n);
    AnsweredNext(messages, n);
    NoneRequested(Received(scan, m), calls);
    if m.Assistant? {
      if Next(scan, m).Scan? {
        hide Requested;
        RequestedFails(Received(scan, m), calls, |calls|);
      }
      if Placed(messages, n) {
        hide Requested;
        forall id <- CallIds(calls)
          ensures id !in scan.seen
        {
        }
        FreshCalls(scan, calls, |calls|);
        AllIds(calls);
      }
    }
  }

  lemma CalledNext(messages: seq<Message>, n: nat)
    requires n < |messages|
    ensures forall id :: Called(messages, n + 1, id) <==> Called(messages, n, id) || id in CallIds(CallsOf(messages[n]))
  {
    forall id
      ensures Called(messages, n + 1, id) <==> Called(messages, n, id) || id in CallIds(CallsOf(messages[n]))
    {
      if id in CallIds(CallsOf(messages[n])) {
        var i :| 0 <= i < |CallsOf(messages[n])| && CallsOf(messages[n])[i].id == id;
        assert CallAt(messages[n], i, id);
      }
    }
  }

  lemma AnsweredNext(messages: seq<Message>, n: nat)
    requires n < |messages|
    ensures forall id :: Answered(messages, n + 1, id) <==> Answered(messages, n, id) || AnswerAt(messages[n], id)
  {
  }

  /** No result comes before its call. */
  lemma {:induction false} AnsweredWereCalled(messages: seq<Message>, n: nat)
    requires n <= |messages| && AllPlaced(messages, n)
    ensures forall id :: Answered(messages, n, id) ==> Called(messages, n, id)
  {
    if n == 0 {
      NothingAnswered(messages);
    } else {
      AnsweredWereCalled(messages, n - 1);
      assert Placed(messages, n - 1);
      CalledNext(messages, n - 1);
      AnsweredNext(messages, n - 1);
      hide Called, Answered;
      forall id | Answered(messages, n, id)
        ensures Called(messages, n, id)
      {
        assert Answered(messages, n - 1 + 1, id);
        assert Called(messages, n - 1, id);
        assert Called(messages, n - 1 + 1, id);
      }
    }
  }

  lemma NothingAnswered(messages: seq<Message>)
    ensures forall id :: !Answered(messages, 0, id)
  {
    forall id
      ensures !Answered(messages, 0, id)
    {
    }
  }

  lemma {:induction false} ScannedMeans(messages: seq<Message>, n: nat)
    requires n <= |messages|
    ensures Scanned(messages, n).Scan? <==> AllPlaced(messages, n)
    ensures Scanned(messages, n).Scan? ==> Remembers(messages, n, Scanned(messages, n))
  {
    hide Next, Remembers, Placed;
    if n == 0 {
      NothingRemembered(messages);
    } else {
      ScannedMeans(messages, n - 1);
      OneScanned(messages, n - 1);
      if Scanned(messages, n - 1).Scan? {
        AnsweredWereCalled(messages, n - 1);
        OneTaken(messages, n - 1, Scanned(messages, n - 1));
      } else {
        NextOfBroken(messages[n - 1]);
      }
      assert AllPlaced(messages, n) <==> AllPlaced(messages, n - 1) && Placed(messages, n - 1);
    }
  }

  lemma NothingRemembered(messages: seq<Message>)
    ensures Remembers(messages, 0, Scan({}, {})) && Scanned(messages, 0) == Scan({}, {}) && AllPlaced(messages, 0)
  {
  }

  /** A transcript may be sent exactly if it is not empty, every result comes once and
      after its call, nothing else comes while a call waits for its result, no call
      identity is used twice, and in the end every call has its result. */
  lemma AcceptedMeans(messages: seq<Message>)
    ensures Accepts(messages) <==>
              && messages != [] && AllPlaced(messages, |messages|)
              && forall id :: Called(messages, |messages|, id) ==> Answered(messages, |messages|, id)
  {
    hide Scanned, Called, Answered, AllPlaced;
    ScannedMeans(messages, |messages|);
  }
}
