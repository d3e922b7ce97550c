/** The append-only, hash-chained journal of one task: compare-and-set commits,
    event deduplication, blobs published before the records that name them, and
    recovery from a failure between any two publications. */
module Journal {
  import opened Results

  /** A JSON document. */
  datatype Value = Null | Flag(flag: bool) | Number(number: int) | Text(text: string)
                 | Items(items: seq<Value>) | Object(fields: map<string, Value>)

  type Digest = string

  datatype TaskKey = TaskKey(instance: string, repository: int, issue: int)

  /** A record without its own digest. */
  datatype Body = Body(schema: int, task: TaskKey, revision: int, previous: Option<Digest>, eventId: string,
                       requestDigest: Digest, timestamp: string, event: Value, state: Value, blobs: seq<Digest>)

  datatype Record = Record(body: Body, digest: Digest)

  /** What the canonical digest is taken of. */
  datatype Document = OfBody(body: Body) | OfValue(value: Value) | OfTask(task: TaskKey)

  type Hash = Document -> Digest

  /** A published file; a damaged one cannot be read back as its document. */
  datatype File<+T> = Damaged | Stored(content: T)

  datatype Name = Numbered(number: nat) | Pending(unique: string) | Stray(name: string)

  datatype Snapshot = Snapshot(revision: int, journalDigest: Digest, state: Value)

  datatype Disk = Disk(journal: map<Name, File<Record>>, blobs: map<Digest, File<Value>>, snapshot: Option<Snapshot>)

  predicate IsIdentifierChar(c: char) {
    'A' <= c <= 'Z' || 'a' <= c <= 'z' || '0' <= c <= '9' || c in {'_', '.', '-'}
  }

  predicate IsIdentifier(s: string) {
    && 1 <= |s| <= 80
    && ('A' <= s[0] <= 'Z' || 'a' <= s[0] <= 'z')
    && forall c <- s :: IsIdentifierChar(c)
  }

  // ---- Which disks are accepted, and as which journal ----

  function Names(disk: Disk): set<Name> {
    set n | n in disk.journal && !n.Pending?
  }

  predicate BlobPresent(h: Hash, blobs: map<Digest, File<Value>>, digest: Digest) {
    digest in blobs && blobs[digest].Stored? && h(OfValue(blobs[digest].content)) == digest
  }

  /** What is checked of a record by itself. */
  predicate WellSigned(h: Hash, blobs: map<Digest, File<Value>>, key: TaskKey, r: Record) {
    && r.body.schema == 1
    && h(OfTask(r.body.task)) == h(OfTask(key))
    && r.digest == h(OfBody(r.body))
    && r.body.state.Object? && r.body.event.Object?
    && IsIdentifier(r.body.eventId)
    && r.body.requestDigest == h(OfValue(r.body.event))
    && forall d <- r.body.blobs :: BlobPresent(h, blobs, d)
  }

  /** What is checked of record `i` against the records before it. */
  predicate Linked(rs: seq<Record>, i: nat)
    requires i < |rs|
  {
    && rs[i].body.revision == i + 1
    && rs[i].body.previous == (if i == 0 then None else Some(rs[i - 1].digest))
    && forall j :: 0 <= j < i ==> rs[j].body.eventId != rs[i].body.eventId
  }

  predicate InChain(h: Hash, blobs: map<Digest, File<Value>>, key: TaskKey, rs: seq<Record>, i: nat)
    requires i < |rs|
  {
    WellSigned(h, blobs, key, rs[i]) && Linked(rs, i)
  }

  predicate Chain(h: Hash, blobs: map<Digest, File<Value>>, key: TaskKey, rs: seq<Record>) {
    forall i :: 0 <= i < |rs| ==> InChain(h, blobs, key, rs, i)
  }

  predicate Listed(disk: Disk, n: nat) {
    forall i :: 1 <= i <= n ==> Numbered(i) in disk.journal && disk.journal[Numbered(i)].Stored?
  }

  /** The records in the files numbered from 1. */
  function Contents(disk: Disk, n: nat): (rs: seq<Record>)
    requires Listed(disk, n)
    ensures |rs| == n && forall i :: 0 <= i < n ==> disk.journal[Numbered(i + 1)] == Stored(rs[i])
  {
    seq(n, i requires 0 <= i < n => disk.journal[Numbered(i + 1)].content)
  }

  function Accepted(h: Hash, key: TaskKey, disk: Disk): Option<seq<Record>> {
    var n := |Names(disk)|;
    if !Listed(disk, n) then None else
    var rs := Contents(disk, n);
    if Chain(h, disk.blobs, key, rs) then Some(rs) else None
  }

  /** The snapshot, if there is one, repeats some committed record. */
  predicate SnapshotCurrent(snapshot: Option<Snapshot>, rs: seq<Record>) {
    snapshot.Some? ==>
      var s := snapshot.value;
      && 1 <= s.revision <= |rs|
      && s.journalDigest == rs[s.revision - 1].digest && s.state == rs[s.revision - 1].body.state
  }

  predicate Sound(h: Hash, key: TaskKey, disk: Disk) {
    var rs := Accepted(h, key, disk);
    rs.Some? && SnapshotCurrent(disk.snapshot, rs.value)
  }

  // ---- Counting the files ----

  lemma {:induction false} NumberedCount(n: nat)
    ensures |set i | 1 <= i <= n :: Numbered(i)| == n
  {
    var upTo := set i | 1 <= i <= n :: Numbered(i);
    if n > 0 {
      NumberedCount(n - 1);
      assert upTo == (set i | 1 <= i <= n - 1 :: Numbered(i)) + {Numbered(n)};
    }
  }

  lemma SameSize(a: set<Name>, b: set<Name>)
    requires a <= b && |a| == |b|
    ensures a == b
  {
    if !(b <= a) {
      var x :| x in b && x !in a;
      SubsetSize(a, b - {x});
    }
  }

  lemma {:induction false} SubsetSize(a: set<Name>, b: set<Name>)
    requires a <= b
    ensures |a| <= |b|
  {
    if a != {} {
      var x :| x in a;
      SubsetSize(a - {x}, b - {x});
    }
  }

  /** In an accepted directory the names are exactly the numbers up to its size. */
  lemma ListedNames(disk: Disk)
    requires Listed(disk, |Names(disk)|)
    ensures Names(disk) == set i | 1 <= i <= |Names(disk)| :: Numbered(i)
  {
    var n := |Names(disk)|;
    var upTo := set i | 1 <= i <= n :: Numbered(i);
    NumberedCount(n);
    forall x <- upTo
      ensures x in Names(disk)
    {
      var i :| 1 <= i <= n && x == Numbered(i);
    }
    SameSize(upTo, Names(disk));
  }

  /** A letter and up to 79 letters, digits, underscores, dots and dashes. */
  predicate NamesEvent(s: string) {
    && 0 < |s| <= 80
    && forall i :: 0 <= i < |s| ==>
         || 'a' <= s[i] <= 'z' || 'A' <= s[i] <= 'Z'
         || (i > 0 && ('0' <= s[i] <= '9' || s[i] == '_' || s[i] == '.' || s[i] == '-'))
  }

  /** The record stands in its place: numbered so, linked to the one before, of this
      task, under its own event identifier, signed over all it says, with every blob it
      names present under its digest. */
  predicate InPlace(h: Hash, blobs: map<Digest, File<Value>>, key: TaskKey, rs: seq<Record>, i: nat)
    requires i < |rs|
  {
    var body := rs[i].body;
    && body.schema == 1 && body.revision == i + 1 && h(OfTask(body.task)) == h(OfTask(key))
    && body.previous == (if i > 0 then Some(rs[i - 1].digest) else None)
    && rs[i].digest == h(OfBody(body)) && body.requestDigest == h(OfValue(body.event))
    && NamesEvent(body.eventId) && (forall j :: 0 <= j < |rs| && rs[j].body.eventId == body.eventId ==> j == i)
    && body.event.Object? && body.state.Object?
    && forall d <- body.blobs :: d in blobs && blobs[d].Stored? && h(OfValue(blobs[d].content)) == d
  }

  lemma IdentifierMeans(s: string)
    ensures IsIdentifier(s) <==> NamesEvent(s)
  {
    if IsIdentifier(s) {
      forall i | 0 <= i < |s|
        ensures IsIdentifierChar(s[i])
      {
        assert s[i] in s;
      }
    }
    if NamesEvent(s) {
      forall c <- s
        ensures IsIdentifierChar(c)
      {
        var i :| 0 <= i < |s| && s[i] == c;
      }
    }
  }

  lemma ChainMeans(h: Hash, blobs: map<Digest, File<Value>>, key: TaskKey, rs: seq<Record>)
    ensures Chain(h, blobs, key, rs) <==> forall i :: 0 <= i < |rs| ==> InPlace(h, blobs, key, rs, i)
  {
    hide IsIdentifier, NamesEvent;
    forall i | 0 <= i < |rs|
      ensures IsIdentifier(rs[i].body.eventId) <==> NamesEvent(rs[i].body.eventId)
    {
      IdentifierMeans(rs[i].body.eventId);
    }
    if Chain(h, blobs, key, rs) {
      forall i | 0 <= i < |rs|
        ensures InPlace(h, blobs, key, rs, i)
      {
        assert InChain(h, blobs, key, rs, i);
        forall j | 0 <= j < |rs| && rs[j].body.eventId == rs[i].body.eventId
          ensures j == i
        {
          assert InChain(h, blobs, key, rs, j);
        }
      }
    }
    if forall i :: 0 <= i < |rs| ==> InPlace(h, blobs, key, rs, i) {
      forall i | 0 <= i < |rs|
        ensures InChain(h, blobs, key, rs, i)
      {
        assert InPlace(h, blobs, key, rs, i);
      }
    }
  }

  predicate HeldBy(disk: Disk, number: nat, r: Record) {
    Numbered(number) in disk.journal && disk.journal[Numbered(number)] == Stored(r)
  }

  /** A directory is accepted, as these records, exactly if its files, apart from those
      half published, are numbered from one without a gap and hold them, and every
      record stands in its place. */
  lemma AcceptedExactly(h: Hash, key: TaskKey, disk: Disk, rs: seq<Record>)
    ensures Accepted(h, key, disk) == Some(rs) <==>
              && (forall name <- disk.journal :: name.Pending? || (name.Numbered? && 1 <= name.number <= |rs|))
              && (forall i :: 0 <= i < |rs| ==> HeldBy(disk, i + 1, rs[i]))
              && (forall i :: 0 <= i < |rs| ==> InPlace(h, disk.blobs, key, rs, i))
  {
    hide Chain, InPlace;
    ChainMeans(h, disk.blobs, key, rs);
    if Accepted(h, key, disk) == Some(rs) {
      assert Listed(disk, |Names(disk)|) && Contents(disk, |Names(disk)|) == rs;
      ListedNames(disk);
      forall name <- disk.journal | !name.Pending?
        ensures name.Numbered? && 1 <= name.number <= |rs|
      {
        assert name in Names(disk);
      }
    }
    if (forall name <- disk.journal :: name.Pending? || (name.Numbered? && 1 <= name.number <= |rs|))
       && (forall i :: 0 <= i < |rs| ==> HeldBy(disk, i + 1, rs[i])) {
      AllNumbered(disk, rs);
    }
  }

  lemma AllNumbered(disk: Disk, rs: seq<Record>)
    requires forall name <- disk.journal :: name.Pending? || (name.Numbered? && 1 <= name.number <= |rs|)
    requires forall i :: 0 <= i < |rs| ==> HeldBy(disk, i + 1, rs[i])
    ensures |Names(disk)| == |rs| && Listed(disk, |rs|) && Contents(disk, |rs|) == rs
  {
    NumberedCount(|rs|);
    forall i | 1 <= i <= |rs|
      ensures Numbered(i) in disk.journal && disk.journal[Numbered(i)] == Stored(rs[i - 1])
    {
      assert HeldBy(disk, (i - 1) + 1, rs[i - 1]);
    }
    var upTo := set i | 1 <= i <= |rs| :: Numbered(i);
    forall name <- Names(disk)
      ensures name in upTo
    {
      assert name == Numbered(name.number);
    }
    assert Names(disk) == upTo;
  }

  // ---- Reading, file by file ----

  lemma LinkPrefix(rs: seq<Record>, shorter: seq<Record>, i: nat)
    requires i < |shorter| <= |rs| && rs[..|shorter|] == shorter
    ensures Linked(rs, i) <==> Linked(shorter, i)
  {
    assert forall j :: 0 <= j < |shorter| ==> rs[j] == rs[..|shorter|][j] == shorter[j];
  }

  lemma ChainPrefix(h: Hash, blobs: map<Digest, File<Value>>, key: TaskKey, rs: seq<Record>, shorter: seq<Record>)
    requires Chain(h, blobs, key, rs) && |shorter| <= |rs| && rs[..|shorter|] == shorter
    ensures Chain(h, blobs, key, shorter)
  {
    hide WellSigned, Linked;
    forall i | 0 <= i < |shorter|
      ensures InChain(h, blobs, key, shorter, i)
    {
      assert InChain(h, blobs, key, rs, i);
      assert rs[i] == rs[..|shorter|][i];
      LinkPrefix(rs, shorter, i);
    }
  }

  lemma LinkLast(rs: seq<Record>, r: Record)
    ensures Linked(rs + [r], |rs|) <==>
            && r.body.revision == |rs| + 1
            && r.body.previous == (if rs == [] then None else Some(rs[|rs| - 1].digest))
            && r.body.eventId !in EventIds(rs)
  {
    var next := rs + [r];
    assert forall j :: 0 <= j < |rs| ==> next[j] == rs[j];
    if id :| id in EventIds(rs) && id == r.body.eventId {
      var j :| 0 <= j < |rs| && rs[j].body.eventId == id;
      assert next[j].body.eventId == id;
    }
  }

  /** Whether one more record continues a chain, by what the reader remembers. */
  lemma ChainNext(h: Hash, blobs: map<Digest, File<Value>>, key: TaskKey, rs: seq<Record>, r: Record)
    requires Chain(h, blobs, key, rs)
    ensures Chain(h, blobs, key, rs + [r]) <==>
            && WellSigned(h, blobs, key, r)
            && r.body.revision == |rs| + 1
            && r.body.previous == (if rs == [] then None else Some(rs[|rs| - 1].digest))
            && r.body.eventId !in EventIds(rs)
  {
    hide WellSigned, Linked, EventIds;
    var next := rs + [r];
    LinkLast(rs, r);
    forall i | 0 <= i < |rs|
      ensures InChain(h, blobs, key, next, i)
    {
      assert InChain(h, blobs, key, rs, i);
      LinkPrefix(next, rs, i);
    }
    assert next[|rs|] == r;
    assert Chain(h, blobs, key, next) <==> InChain(h, blobs, key, next, |rs|);
  }

  function EventIds(rs: seq<Record>): set<string> {
    set r <- rs :: r.body.eventId
  }

  lemma RefusedByPrefix(h: Hash, key: TaskKey, disk: Disk, k: nat)
    requires k <= |Names(disk)| && Listed(disk, k)
    requires !Chain(h, disk.blobs, key, Contents(disk, k))
    ensures Accepted(h, key, disk).None?
  {
    hide Chain, Names;
    var n := |Names(disk)|;
    if Listed(disk, n) && Chain(h, disk.blobs, key, Contents(disk, n)) {
      var all, part := Contents(disk, n), Contents(disk, k);
      assert forall i :: 0 <= i < k ==> Stored(all[i]) == disk.journal[Numbered(i + 1)] == Stored(part[i]);
      assert all[..k] == part;
      ChainPrefix(h, disk.blobs, key, all, part);
    }
  }

  /** The reader: accepts the directory and returns its records, or refuses. */
  method Records(h: Hash, key: TaskKey, disk: Disk) returns (r: Result<seq<Record>>)
    ensures r == match Accepted(h, key, disk)
                 case Some(rs) => Ok(rs)
                 case None => Refused("STATE_CORRUPT")
  {
    hide WellSigned, Chain, Names;
    var n := |Names(disk)|;
    EmptyChain(h, disk.blobs, key);
    var records: seq<Record>, previous, ids: set<string> := [], None, {};
    for number := 1 to n + 1
      invariant Listed(disk, number - 1)
      invariant records == Contents(disk, number - 1)
      invariant Chain(h, disk.blobs, key, records)
      invariant previous == if records == [] then None else Some(records[|records| - 1].digest)
      invariant ids == EventIds(records)
    {
      if Numbered(number) !in disk.journal || disk.journal[Numbered(number)].Damaged? {
        return Refused("STATE_CORRUPT");
      }
      var record := disk.journal[Numbered(number)].content;
      assert records + [record] == Contents(disk, number);
      ChainNext(h, disk.blobs, key, records, record);
      if !WellSigned(h, disk.blobs, key, record)
         || record.body.revision != number || record.body.previous != previous || record.body.eventId in ids
      {
        RefusedByPrefix(h, key, disk, number);
        return Refused("STATE_CORRUPT");
      }
      ids := ids + {record.body.eventId};
      previous := Some(record.digest);
      records := records + [record];
    }
    return Ok(records);
  }

  lemma EmptyChain(h: Hash, blobs: map<Digest, File<Value>>, key: TaskKey)
    ensures Chain(h, blobs, key, [])
  {
  }

  // ---- Publishing ----

  /** How one publication ends: done, lost before the file appeared, or failed
      after it appeared. A crash may also leave its temporary file behind. */
  datatype Publication = Done | Lost(temporary: Option<string>) | Unconfirmed(temporary: Option<string>)
  {
    predicate Visible() {
      !Lost?
    }
  }

  function Leftover(disk: Disk, p: Publication): Disk {
    if p.Done? || p.temporary.None? then disk else
    disk.(journal := disk.journal[Pending(p.temporary.value) := Damaged])
  }

  function PublishBlob(disk: Disk, digest: Digest, value: Value, p: Publication): Disk {
    Leftover(if p.Visible() then disk.(blobs := disk.blobs[digest := Stored(value)]) else disk, p)
  }

  function PublishRecord(disk: Disk, r: Record, number: nat, p: Publication): Disk {
    Leftover(if p.Visible() then disk.(journal := disk.journal[Numbered(number) := Stored(r)]) else disk, p)
  }

  function SnapshotOf(r: Record): Snapshot {
    Snapshot(r.body.revision, r.digest, r.body.state)
  }

  function PublishSnapshot(disk: Disk, r: Record, p: Publication): Disk {
    Leftover(if p.Visible() then disk.(snapshot := Some(SnapshotOf(r))) else disk, p)
  }

  lemma LeftoverHarmless(h: Hash, key: TaskKey, disk: Disk, p: Publication)
    ensures Accepted(h, key, Leftover(disk, p)) == Accepted(h, key, disk)
    ensures Leftover(disk, p).blobs == disk.blobs && Leftover(disk, p).snapshot == disk.snapshot
    ensures Names(Leftover(disk, p)) == Names(disk)
  {
    hide Chain;
    var after := Leftover(disk, p);
    assert Names(after) == Names(disk);
    var n := |Names(disk)|;
    assert Listed(after, n) <==> Listed(disk, n);
    if Listed(disk, n) {
      SameContents(disk, after, n);
    }
  }

  lemma SameContents(a: Disk, b: Disk, n: nat)
    requires Listed(a, n) && Listed(b, n)
    requires forall i :: 1 <= i <= n ==> a.journal[Numbered(i)] == b.journal[Numbered(i)]
    ensures Contents(a, n) == Contents(b, n)
  {
    assert forall i :: 0 <= i < n ==> Stored(Contents(a, n)[i]) == a.journal[Numbered(i + 1)];
  }

  lemma MoreBlobs(h: Hash, key: TaskKey, rs: seq<Record>, a: map<Digest, File<Value>>, b: map<Digest, File<Value>>)
    requires Chain(h, a, key, rs)
    requires forall d <- a :: d in b && b[d] == a[d]
    ensures Chain(h, b, key, rs)
  {
    hide Linked;
    forall i | 0 <= i < |rs|
      ensures InChain(h, b, key, rs, i)
    {
      assert InChain(h, a, key, rs, i);
      forall d <- rs[i].body.blobs
        ensures BlobPresent(h, b, d)
      {
        assert BlobPresent(h, a, d);
      }
    }
  }

  /** Publishing a blob under a new name keeps every accepted journal. */
  lemma BlobHarmless(h: Hash, key: TaskKey, disk: Disk, digest: Digest, value: Value, p: Publication)
    requires Accepted(h, key, disk).Some? && digest !in disk.blobs
    ensures Accepted(h, key, PublishBlob(disk, digest, value, p)) == Accepted(h, key, disk)
  {
    hide Chain;
    var after := disk.(blobs := disk.blobs[digest := Stored(value)]);
    var n := |Names(disk)|;
    assert Names(after) == Names(disk);
    SameContents(disk, after, n);
    MoreBlobs(h, key, Contents(disk, n), disk.blobs, after.blobs);
    LeftoverHarmless(h, key, if p.Visible() then after else disk, p);
  }

  /** Publishing the next record of the chain appends exactly that record. */
  lemma RecordAppends(h: Hash, key: TaskKey, disk: Disk, r: Record)
    requires Accepted(h, key, disk).Some?
    requires var rs := Accepted(h, key, disk).value; Chain(h, disk.blobs, key, rs + [r])
    ensures var rs := Accepted(h, key, disk).value;
            Accepted(h, key, disk.(journal := disk.journal[Numbered(|rs| + 1) := Stored(r)])) == Some(rs + [r])
  {
    hide Chain;
    var n := |Names(disk)|;
    var rs := Accepted(h, key, disk).value;
    var after := disk.(journal := disk.journal[Numbered(n + 1) := Stored(r)]);
    ListedNames(disk);
    assert Names(after) == Names(disk) + {Numbered(n + 1)};
    assert Numbered(n + 1) !in Names(disk);
    assert |Names(after)| == n + 1;
    assert Listed(after, n + 1);
    assert Contents(after, n + 1) == rs + [r];
  }

  // ---- Committing ----

  datatype Committed = Committed(state: Option<Value>, revision: nat, duplicate: bool, snapshotCurrent: bool)

  datatype Request = Request(expected: int, eventId: string, event: Value, blobs: seq<Value>, timestamp: string)

  /** What the reader and the arguments settle before anything is written. */
  datatype Decision = Reject(code: string) | Known | Append(record: Record)

  function LastState(rs: seq<Record>): Option<Value> {
    if rs == [] then None else Some(rs[|rs| - 1].body.state)
  }

  function NextRecord(h: Hash, key: TaskKey, rs: seq<Record>, q: Request, state: Value): Record {
    var digests := seq(|q.blobs|, i requires 0 <= i < |q.blobs| => h(OfValue(q.blobs[i])));
    var body := Body(1, key, |rs| + 1, if rs == [] then None else Some(rs[|rs| - 1].digest), q.eventId,
                     h(OfValue(q.event)), q.timestamp, q.event, state, digests);
    Record(body, h(OfBody(body)))
  }

  predicate ArgumentsAllowed(q: Request) {
    q.expected >= 0 && IsIdentifier(q.eventId) && q.event.Object? && forall b <- q.blobs :: b.Object?
  }

  /** A request is looked at only with a revision that may exist, a proper identifier,
      and documents for its event and every blob. */
  lemma ArgumentsMean(q: Request)
    ensures ArgumentsAllowed(q) <==>
              && q.expected >= 0 && NamesEvent(q.eventId) && q.event.Object?
              && forall i :: 0 <= i < |q.blobs| ==> q.blobs[i].Object?
  {
    hide IsIdentifier, NamesEvent;
    IdentifierMeans(q.eventId);
    if forall i :: 0 <= i < |q.blobs| ==> q.blobs[i].Object? {
      forall b <- q.blobs
        ensures b.Object?
      {
        var i :| 0 <= i < |q.blobs| && q.blobs[i] == b;
      }
    }
  }

  function Decide(h: Hash, key: TaskKey, encodable: Document -> bool, rs: seq<Record>, q: Request,
                  reduce: Option<Value> -> Result<Value>): Decision {
    if exists r <- rs :: r.body.eventId == q.eventId && r.body.requestDigest != h(OfValue(q.event)) then
      Reject("EVENT_COLLISION")
    else if q.eventId in EventIds(rs) then Known
    else if q.expected != |rs| then Reject("STATE_CONFLICT") else
    match reduce(LastState(rs))
    case Refused(code) => Reject(code)
    case Ok(state) =>
      if !state.Object? then Reject("STATE_VALUE") else
      var record := NextRecord(h, key, rs, q, state);
      if encodable(OfBody(record.body)) then Append(record) else Reject("STATE_SIZE")
  }

  lemma AppendContinues(h: Hash, key: TaskKey, encodable: Document -> bool, blobs: map<Digest, File<Value>>,
                        rs: seq<Record>, q: Request, reduce: Option<Value> -> Result<Value>)
    requires ArgumentsAllowed(q) && Chain(h, blobs, key, rs)
    requires Decide(h, key, encodable, rs, q, reduce).Append?
    requires forall i :: 0 <= i < |q.blobs| ==> BlobPresent(h, blobs, h(OfValue(q.blobs[i])))
    ensures Chain(h, blobs, key, rs + [Decide(h, key, encodable, rs, q, reduce).record])
  {
    hide Chain, IsIdentifier;
    var r := Decide(h, key, encodable, rs, q, reduce).record;
    ChainNext(h, blobs, key, rs, r);
    forall d <- r.body.blobs
      ensures BlobPresent(h, blobs, d)
    {
      var i :| 0 <= i < |r.body.blobs| && r.body.blobs[i] == d;
    }
  }

  /** Some record has the identifier. */
  predicate Holds(rs: seq<Record>, eventId: string) {
    exists r <- rs :: r.body.eventId == eventId
  }

  /** Some record has the identifier with another content. */
  predicate HoldsOther(h: Hash, rs: seq<Record>, eventId: string, event: Value) {
    exists r <- rs :: r.body.eventId == eventId && r.body.requestDigest != h(OfValue(event))
  }

  /** The record of a request decided on these records and no others. */
  predicate DecidedOn(h: Hash, rs: seq<Record>, q: Request, reduce: Option<Value> -> Result<Value>, r: Record) {
    && q.expected == |rs| && !Holds(rs, q.eventId)
    && r.body.revision == |rs| + 1 && r.body.eventId == q.eventId
    && r.body.event == q.event && r.body.requestDigest == h(OfValue(q.event)) && r.digest == h(OfBody(r.body))
    && r.body.previous == (if rs == [] then None else Some(rs[|rs| - 1].digest))
    && reduce(if rs == [] then None else Some(rs[|rs| - 1].body.state)) == Ok(r.body.state) && r.body.state.Object?
    && |r.body.blobs| == |q.blobs| && forall i :: 0 <= i < |q.blobs| ==> r.body.blobs[i] == h(OfValue(q.blobs[i]))
  }

  /** What each decision stands for: an append is compare-and-set, a known event was
      recorded with this content, and the refusals say why, in their order. */
  lemma DecisionMeans(h: Hash, key: TaskKey, encodable: Document -> bool, rs: seq<Record>, q: Request,
                      reduce: Option<Value> -> Result<Value>)
    ensures var d := Decide(h, key, encodable, rs, q, reduce);
            && (d.Append? ==> DecidedOn(h, rs, q, reduce, d.record))
            && (d.Known? <==> Holds(rs, q.eventId) && !HoldsOther(h, rs, q.eventId, q.event))
            && (HoldsOther(h, rs, q.eventId, q.event) ==> d == Reject("EVENT_COLLISION"))
            && (q.expected != |rs| && !Holds(rs, q.eventId) ==> d == Reject("STATE_CONFLICT"))
            && (d.Reject? ==>
                  || HoldsOther(h, rs, q.eventId, q.event) || q.expected != |rs|
                  || (var next := reduce(if rs == [] then None else Some(rs[|rs| - 1].body.state));
                      next.Refused? || !next.value.Object? || !encodable(OfBody(NextRecord(h, key, rs, q, next.value).body))))
  {
  }

  lemma DecidedFacts(h: Hash, rs: seq<Record>, q: Request, reduce: Option<Value> -> Result<Value>, d: Decision)
    requires d.Append? ==> DecidedOn(h, rs, q, reduce, d.record)
    ensures d.Append? ==> q.expected == |rs| && !Holds(rs, q.eventId) && !HoldsOther(h, rs, q.eventId, q.event)
    ensures HoldsOther(h, rs, q.eventId, q.event) ==> Holds(rs, q.eventId)
  {
  }

  /** No new blob is too large, and none meets a damaged file under its name. */
  predicate Publishable(h: Hash, encodable: Document -> bool, present: map<Digest, File<Value>>, blobs: seq<Value>) {
    forall b <- blobs ::
      if h(OfValue(b)) in present then BlobPresent(h, present, h(OfValue(b))) else encodable(OfValue(b))
  }

  /** Every blob on the disk is what its name says. */
  predicate Intact(h: Hash, blobs: map<Digest, File<Value>>) {
    forall d <- blobs :: BlobPresent(h, blobs, d)
  }

  lemma BlobKeepsIntact(h: Hash, disk: Disk, value: Value, p: Publication)
    requires Intact(h, disk.blobs)
    ensures Intact(h, PublishBlob(disk, h(OfValue(value)), value, p).blobs)
  {
    var after := PublishBlob(disk, h(OfValue(value)), value, p).blobs;
    forall d <- after
      ensures BlobPresent(h, after, d)
    {
      assert d in disk.blobs ==> BlobPresent(h, disk.blobs, d);
    }
  }

  lemma IntactPublishable(h: Hash, encodable: Document -> bool, present: map<Digest, File<Value>>, blobs: seq<Value>)
    requires Intact(h, present) && forall b <- blobs :: encodable(OfValue(b))
    ensures Publishable(h, encodable, present, blobs)
  {
    hide BlobPresent;
  }

  lemma Extended(h: Hash, key: TaskKey, encodable: Document -> bool, disk: Disk, q: Request,
                 reduce: Option<Value> -> Result<Value>)
    requires ArgumentsAllowed(q) && Accepted(h, key, disk).Some?
    requires var rs := Accepted(h, key, disk).value; Decide(h, key, encodable, rs, q, reduce).Append?
    requires forall i :: 0 <= i < |q.blobs| ==> BlobPresent(h, disk.blobs, h(OfValue(q.blobs[i])))
    ensures var rs := Accepted(h, key, disk).value;
            Chain(h, disk.blobs, key, rs + [Decide(h, key, encodable, rs, q, reduce).record])
  {
    hide Chain, BlobPresent, IsIdentifier, NextRecord;
    AppendContinues(h, key, encodable, disk.blobs, Accepted(h, key, disk).value, q, reduce);
  }

  lemma RecordPublished(h: Hash, key: TaskKey, disk: Disk, r: Record, p: Publication)
    requires Sound(h, key, disk)
    requires var rs := Accepted(h, key, disk).value; Chain(h, disk.blobs, key, rs + [r])
    ensures var rs := Accepted(h, key, disk).value;
            var after := PublishRecord(disk, r, |rs| + 1, p);
            && Sound(h, key, after)
            && Accepted(h, key, after) == Some(if p.Visible() then rs + [r] else rs)
  {
    hide Accepted, Chain;
    var rs := Accepted(h, key, disk).value;
    RecordAppends(h, key, disk, r);
    LeftoverHarmless(h, key, if p.Visible() then disk.(journal := disk.journal[Numbered(|rs| + 1) := Stored(r)]) else disk, p);
  }

  lemma SnapshotHarmless(h: Hash, key: TaskKey, disk: Disk, snapshot: Option<Snapshot>)
    ensures Accepted(h, key, disk.(snapshot := snapshot)) == Accepted(h, key, disk)
  {
    hide Chain;
    var after := disk.(snapshot := snapshot);
    assert Names(after) == Names(disk);
    var n := |Names(disk)|;
    assert Listed(after, n) <==> Listed(disk, n);
    if Listed(disk, n) {
      SameContents(disk, after, n);
    }
  }

  lemma RevisionOf(h: Hash, key: TaskKey, disk: Disk, i: nat)
    requires Accepted(h, key, disk).Some? && i < |Accepted(h, key, disk).value|
    ensures Accepted(h, key, disk).value[i].body.revision == i + 1
  {
    hide WellSigned;
    assert InChain(h, disk.blobs, key, Accepted(h, key, disk).value, i);
  }

  lemma SnapshotPublished(h: Hash, key: TaskKey, disk: Disk, p: Publication)
    requires Sound(h, key, disk) && Accepted(h, key, disk).value != []
    ensures var rs := Accepted(h, key, disk).value;
            var after := PublishSnapshot(disk, rs[|rs| - 1], p);
            Sound(h, key, after) && Accepted(h, key, after) == Some(rs)
  {
    hide Accepted;
    var rs := Accepted(h, key, disk).value;
    var last := rs[|rs| - 1];
    RevisionOf(h, key, disk, |rs| - 1);
    var visible := if p.Visible() then disk.(snapshot := Some(SnapshotOf(last))) else disk;
    SnapshotHarmless(h, key, disk, Some(SnapshotOf(last)));
    LeftoverHarmless(h, key, visible, p);
  }

  class FileJournal {
    const h: Hash
    const key: TaskKey
    const encodable: Document -> bool
    var disk: Disk
    var unhealthy: bool

    ghost predicate Valid()
      reads this
    {
      Sound(h, key, disk)
    }

    ghost function Log(): seq<Record>
      reads this
      requires Valid()
    {
      Accepted(h, key, disk).value
    }

    constructor (h: Hash, key: TaskKey, encodable: Document -> bool)
      ensures this.h == h && this.key == key && this.encodable == encodable
      ensures Valid() && Log() == [] && !unhealthy
    {
      this.h, this.key, this.encodable := h, key, encodable;
      disk, unhealthy := Disk(map[], map[], None), false;
    }

    /** On a disk that is there already, with the storage in the given health. */
    constructor Open(h: Hash, key: TaskKey, encodable: Document -> bool, disk: Disk, unhealthy: bool)
      requires Sound(h, key, disk)
      ensures this.h == h && this.key == key && this.encodable == encodable
      ensures Valid() && this.disk == disk && this.unhealthy == unhealthy
    {
      this.h, this.key, this.encodable, this.disk, this.unhealthy := h, key, encodable, disk, unhealthy;
    }

    /** A new process on the same disk, after a crash or a shutdown. */
    method Reopen()
      modifies this`unhealthy
      ensures !unhealthy
    {
      unhealthy := false;
    }

    /** Publishes the blobs a record will name; `io(i + 1)` is the outcome of
        publishing blob `i`. */
    method PublishBlobs(blobs: seq<Value>, io: nat -> Publication) returns (ok: bool)
      requires Valid()
      modifies this`disk
      ensures Valid() && Log() == old(Log())
      ensures disk.snapshot == old(disk.snapshot)
      ensures ok ==> forall i :: 0 <= i < |blobs| ==> BlobPresent(h, disk.blobs, h(OfValue(blobs[i])))
      ensures Publishable(h, encodable, old(disk.blobs), blobs) && (forall i :: io(i) == Done) ==> ok
      ensures Intact(h, old(disk.blobs)) ==> Intact(h, disk.blobs)
    {
      hide Accepted, Intact;
      for i := 0 to |blobs|
        invariant Valid() && Log() == old(Log())
        invariant disk.snapshot == old(disk.snapshot)
        invariant forall j :: 0 <= j < i ==> BlobPresent(h, disk.blobs, h(OfValue(blobs[j])))
        invariant Publishable(h, encodable, old(disk.blobs), blobs) ==> Publishable(h, encodable, disk.blobs, blobs)
        invariant Intact(h, old(disk.blobs)) ==> Intact(h, disk.blobs)
      {
        var digest := h(OfValue(blobs[i]));
        if digest in disk.blobs {
          if !BlobPresent(h, disk.blobs, digest) {
            return false;
          }
        } else if !encodable(OfValue(blobs[i])) {
          return false;
        } else {
          var p := io(i + 1);
          BlobHarmless(h, key, disk, digest, blobs[i], p);
          if Intact(h, disk.blobs) {
            BlobKeepsIntact(h, disk, blobs[i], p);
          }
          disk := PublishBlob(disk, digest, blobs[i], p);
          if !p.Done? {
            return false;
          }
        }
      }
      ok := true;
    }

    /** Commits one event. `io(0)` is the outcome of making the directories,
        `io(i + 1)` of blob `i`, then of the record and of the snapshot.
        Whatever fails, the journal is the old one or the old one with exactly
        the decided record; a refusal before writing leaves the disk alone. */
    method Commit(q: Request, reduce: Option<Value> -> Result<Value>, io: nat -> Publication) returns (r: Result<Committed>)
      requires Valid()
      modifies this
      ensures Valid()
      ensures var before := old(Log());
              var decision := Decide(h, key, encodable, before, q, reduce);
              if !ArgumentsAllowed(q) || old(unhealthy) then
                r.Refused? && disk == old(disk) && unhealthy == old(unhealthy)
              else match decision
                case Reject(code) => r == Refused(code) && disk == old(disk) && !unhealthy
                case Known => r == Ok(Committed(LastState(before), |before|, true, false))
                              && disk == old(disk) && !unhealthy
                case Append(record) =>
                  if r.Ok? then
                    && Log() == before + [record]
                    && r.value == Committed(Some(record.body.state), |before| + 1, false, !unhealthy)
                    && (!unhealthy ==> disk.snapshot == Some(SnapshotOf(record)))
                  else
                    && r == Refused("STATE_IO") && unhealthy
                    && (Log() == before || Log() == before + [record])
      ensures (forall i :: io(i) == Done) && Publishable(h, encodable, old(disk.blobs), q.blobs)
              && ArgumentsAllowed(q) && !old(unhealthy) && Decide(h, key, encodable, old(Log()), q, reduce).Append?
              ==> r.Ok? && !unhealthy
      ensures Intact(h, old(disk.blobs)) ==> Intact(h, disk.blobs)
      ensures r.Ok? && !r.value.duplicate ==> Log() != old(Log())
      ensures Log() != old(Log()) ==>
                && |Log()| == |old(Log())| + 1 && Log()[..|old(Log())|] == old(Log())
                && DecidedOn(h, old(Log()), q, reduce, Log()[|old(Log())|])
      ensures r.Ok? && r.value.duplicate ==>
                disk == old(disk) && Holds(old(Log()), q.eventId) && !HoldsOther(h, old(Log()), q.eventId, q.event)
      ensures Log() != old(Log()) ==> q.expected == |old(Log())| && !Holds(old(Log()), q.eventId)
      ensures q.expected != |old(Log())| ==> disk == old(disk) && (Holds(old(Log()), q.eventId) || r.Refused?)
      ensures q.expected != |old(Log())| && !Holds(old(Log()), q.eventId) && ArgumentsAllowed(q) && !old(unhealthy) ==>
                r == Refused("STATE_CONFLICT")
      ensures HoldsOther(h, old(Log()), q.eventId, q.event) && ArgumentsAllowed(q) && !old(unhealthy) ==>
                r == Refused("EVENT_COLLISION") && disk == old(disk)
    {
      hide Accepted, Chain, Intact, Holds, HoldsOther, DecidedOn, NextRecord, BlobPresent, IsIdentifier;
      if !ArgumentsAllowed(q) {
        return Refused("STATE_VALUE");
      }
      if unhealthy {
        return Refused("STATE_UNHEALTHY");
      }
      var read := Records(h, key, disk);
      var records := read.value;
      var decision := Decide(h, key, encodable, records, q, reduce);
      DecisionMeans(h, key, encodable, records, q, reduce);
      DecidedFacts(h, records, q, reduce, decision);
      match decision {
        case Reject(code) => return Refused(code);
        case Known => return Ok(Committed(LastState(records), |records|, true, false));
        case Append(record) =>
          if !io(0).Done? {
            unhealthy := true;
            return Refused("STATE_IO");
          }
          var published := PublishBlobs(q.blobs, io);
          if !published {
            unhealthy := true;
            return Refused("STATE_IO");
          }
          var p, s := io(|q.blobs| + 1), io(|q.blobs| + 2);
          Extended(h, key, encodable, disk, q, reduce);
          RecordPublished(h, key, disk, record, p);
          disk := PublishRecord(disk, record, |records| + 1, p);
          if !p.Done? {
            unhealthy := true;
            return Refused("STATE_IO");
          }
          SnapshotPublished(h, key, disk, s);
          disk := PublishSnapshot(disk, record, s);
          if !s.Done? {
            unhealthy := true;
          }
          return Ok(Committed(Some(record.body.state), |records| + 1, false, !unhealthy));
      }
    }

    /** Rewrites the snapshot from the last record. */
    method Recover(p: Publication) returns (r: Result<Option<Value>>)
      requires Valid()
      modifies this
      ensures Valid() && Log() == old(Log())
      ensures r.Ok? ==> r.value == LastState(Log()) && unhealthy == old(unhealthy)
                        && (Log() != [] ==> disk.snapshot == Some(SnapshotOf(Log()[|Log()| - 1])))
      ensures r.Refused? <==> Log() != [] && !p.Done?
      ensures r.Refused? ==> unhealthy
    {
      hide Accepted;
      var read := Records(h, key, disk);
      var records := read.value;
      if records == [] {
        return Ok(None);
      }
      SnapshotPublished(h, key, disk, p);
      disk := PublishSnapshot(disk, records[|records| - 1], p);
      if !p.Done? {
        unhealthy := true;
        return Refused("STATE_IO");
      }
      return Ok(LastState(records));
    }
  }

  // ---- Whole lifetimes ----

  /** What happens to one task's journal: commits and recoveries with any storage
      outcomes, and restarts after a crash or a shutdown. */
  datatype Happening =
    | Committing(request: Request, reduce: Option<Value> -> Result<Value>, io: nat -> Publication)
    | Recovering(publication: Publication)
    | Restarting

  /** At most this many of the happenings commit the event. */
  function Attempts(hs: seq<Happening>, n: nat, eventId: string): nat
    requires n <= |hs|
  {
    if n == 0 then 0 else
    Attempts(hs, n - 1, eventId) + (if hs[n - 1].Committing? && hs[n - 1].request.eventId == eventId then 1 else 0)
  }

  /** Over any mix of commits, failures, crashes and restarts the journal stays
      acceptable, only grows, and holds each event at most once, and only events
      that were offered. */
  method Live(journal: FileJournal, hs: seq<Happening>)
    requires journal.Valid()
    modifies journal
    ensures journal.Valid()
    ensures old(journal.Log()) <= journal.Log()
    ensures forall i, j :: 0 <= i < j < |journal.Log()| ==>
              journal.Log()[i].body.eventId != journal.Log()[j].body.eventId
    ensures forall i :: |old(journal.Log())| <= i < |journal.Log()| ==>
              Attempts(hs, |hs|, journal.Log()[i].body.eventId) > 0
  {
    hide Sound, Accepted;
    for k := 0 to |hs|
      invariant journal.Valid() && old(journal.Log()) <= journal.Log()
      invariant forall i :: |old(journal.Log())| <= i < |journal.Log()| ==>
                  Attempts(hs, k, journal.Log()[i].body.eventId) > 0
    {
      Experience(journal, hs[k]);
    }
    DistinctEvents(journal.h, journal.key, journal.disk);
  }

  /** One happening adds nothing, or one record of the event it commits. */
  method Experience(journal: FileJournal, happening: Happening)
    requires journal.Valid()
    modifies journal
    ensures journal.Valid()
    ensures journal.Log() == old(journal.Log()) ||
            (&& happening.Committing? && |journal.Log()| == |old(journal.Log())| + 1
             && old(journal.Log()) <= journal.Log()
             && DecidedOn(journal.h, old(journal.Log()), happening.request, happening.reduce, journal.Log()[|old(journal.Log())|]))
  {
    hide Sound, Accepted, Decide;
    match happening {
      case Committing(q, reduce, io) =>
        var r := journal.Commit(q, reduce, io);
      case Recovering(p) =>
        var r := journal.Recover(p);
      case Restarting =>
        journal.Reopen();
    }
  }

  lemma DistinctEvents(h: Hash, key: TaskKey, disk: Disk)
    requires Sound(h, key, disk)
    ensures var rs := Accepted(h, key, disk).value;
            forall i, j :: 0 <= i < j < |rs| ==> rs[i].body.eventId != rs[j].body.eventId
  {
    hide WellSigned;
    var rs := Accepted(h, key, disk).value;
    forall i, j | 0 <= i < j < |rs|
      ensures rs[i].body.eventId != rs[j].body.eventId
    {
      assert InChain(h, disk.blobs, key, rs, j);
    }
  }

  /** Retrying an event: once a commit has put it in the journal, every later
      attempt with the same content is answered from the journal as it then
      is, and adds nothing; different content under its identifier is refused. */
  lemma RetryAddsNothing(h: Hash, key: TaskKey, encodable: Document -> bool, rs: seq<Record>, q: Request,
                         later: seq<Record>, again: Request, reduce: Option<Value> -> Result<Value>)
    requires Decide(h, key, encodable, rs, q, reduce).Append?
    requires rs + [Decide(h, key, encodable, rs, q, reduce).record] <= later
    requires forall i, j :: 0 <= i < j < |later| ==> later[i].body.eventId != later[j].body.eventId
    requires again.eventId == q.eventId
    ensures forall reduce' :: Decide(h, key, encodable, later, again, reduce')
              == if h(OfValue(again.event)) == h(OfValue(q.event)) then Known else Reject("EVENT_COLLISION")
  {
    var r := Decide(h, key, encodable, rs, q, reduce).record;
    assert later[|rs|] == (rs + [r])[|rs|] == r;
    assert r.body.requestDigest == h(OfValue(q.event)) && r in later;
    assert forall x <- later :: x.body.eventId == q.eventId ==> x == r;
  }

  // ---- The head digest pins the history ----

  ghost predicate Collision(h: Hash) {
    exists a, b :: a != b && h(a) == h(b)
  }

  lemma RecordFacts(h: Hash, blobs: map<Digest, File<Value>>, key: TaskKey, rs: seq<Record>, i: nat)
    requires Chain(h, blobs, key, rs) && i < |rs|
    ensures rs[i].digest == h(OfBody(rs[i].body)) && rs[i].body.revision == i + 1
    ensures rs[i].body.previous == if i == 0 then None else Some(rs[i - 1].digest)
  {
    assert InChain(h, blobs, key, rs, i);
  }

  /** Two journals of one task that are accepted and end in the same digest are
      record for record the same, unless two documents share a digest. */
  lemma {:induction false} SameHeadSameHistory(h: Hash, key: TaskKey, ba: map<Digest, File<Value>>, a: seq<Record>,
                                               bb: map<Digest, File<Value>>, b: seq<Record>)
    requires Chain(h, ba, key, a) && Chain(h, bb, key, b) && a != [] && b != []
    requires a[|a| - 1].digest == b[|b| - 1].digest
    ensures a == b || Collision(h)
    decreases |a|
  {
    hide WellSigned, Linked, Chain;
    var m, n := |a| - 1, |b| - 1;
    var x, y := a[m], b[n];
    RecordFacts(h, ba, key, a, m);
    RecordFacts(h, bb, key, b, n);
    if x.body != y.body {
      assert OfBody(x.body) != OfBody(y.body) && h(OfBody(x.body)) == h(OfBody(y.body));
    } else {
      assert m == n && x == y;
      ChainPrefix(h, ba, key, a, a[..m]);
      ChainPrefix(h, bb, key, b, b[..n]);
      if m > 0 {
        SameHeadSameHistory(h, key, ba, a[..m], bb, b[..n]);
      }
      assert a == a[..m] + [x] && b == b[..n] + [y];
    }
  }

  /** So with an injective digest the head digest identifies the history. */
  lemma HeadIdentifiesHistory(h: Hash, key: TaskKey, c: Disk, d: Disk)
    requires forall a, b :: h(a) == h(b) ==> a == b
    requires Accepted(h, key, c).Some? && Accepted(h, key, d).Some?
    requires Accepted(h, key, c).value != [] && Accepted(h, key, d).value != []
    ensures var a, b := Accepted(h, key, c).value, Accepted(h, key, d).value;
            a[|a| - 1].digest == b[|b| - 1].digest <==> a == b
  {
    hide Chain;
    var a, b := Accepted(h, key, c).value, Accepted(h, key, d).value;
    if a[|a| - 1].digest == b[|b| - 1].digest {
      SameHeadSameHistory(h, key, c.blobs, a, d.blobs, b);
    }
  }
}
