/**
 * discover: back-fill the presign table from the caps the operator owns on chain. Every reply
 * of the node and of the database is a parameter, so the contracts hold whatever fails and
 * whatever other writers insert meanwhile.
 */
module Discover {
  import opened Common
  import SignPipeline

  type ObjectId = string

  const BATCH: nat := 50

  datatype Session = Session(curve: nat, algorithm: nat)

  datatype Row = Row(cap: ObjectId, network: Network, session: Session, nek: ObjectId, status: SignPipeline.PresignStatus, minted: Option<string>)

  datatype Page = Page(objects: seq<(ObjectId, bool)>, next: Option<string>)   // id, and whether its type is a presign cap

  /** A batched object read: the batch fails, or each position has a usable object or not. */
  type BatchReply<T> = (nat, seq<ObjectId>) -> Option<seq<Option<T>>>

  datatype InsertFate = Reached | Refused | AnswerLost   // the statement ran; failed; ran, but its answer was lost

  datatype Replies = Replies(
    pages: seq<Page>,                          // the pages listed; without a last one, the next request throws
    caps: BatchReply<ObjectId>,                // presign id of each cap
    sessions: BatchReply<Session>,             // content of each presign session
    nek: (nat, ObjectId) -> Option<ObjectId>,  // dynamic field of a presign session
    others: nat -> seq<Row>,                   // rows other writers insert before our k-th attempt
    fate: nat -> InsertFate)

  datatype DiscoverError = ListingFailed

  datatype Counts = Counts(scanned: nat, alreadyTracked: nat, inserted: nat, failed: nat)

  // ---------------------------------------------------------------------------
  // The table and its unique index
  // ---------------------------------------------------------------------------

  predicate Tracked(rows: seq<Row>, cap: ObjectId) { exists i :: 0 <= i < |rows| && rows[i].cap == cap }

  ghost predicate UniqueCaps(rows: seq<Row>) {
    forall i, j :: 0 <= i < j < |rows| ==> rows[i].cap != rows[j].cap
  }

  /** INSERT … ON CONFLICT DO NOTHING. */
  function Insert(rows: seq<Row>, row: Row): (r: seq<Row>)
    ensures rows <= r && Tracked(r, row.cap)
    ensures |r| == |rows| + if Tracked(rows, row.cap) then 0 else 1
    ensures UniqueCaps(rows) ==> UniqueCaps(r)
  {
    if Tracked(rows, row.cap) then rows
    else assert (rows + [row])[|rows|] == row; rows + [row]
  }

  function InsertAll(rows: seq<Row>, more: seq<Row>): (r: seq<Row>)
    ensures rows <= r
    ensures UniqueCaps(rows) ==> UniqueCaps(r)
    ensures forall i :: |rows| <= i < |r| ==> r[i] in more
  {
    if more == [] then rows
    else Insert(InsertAll(rows, more[..|more| - 1]), more[|more| - 1])
  }

  /** `ids` and the caps listed from page `at` on, in order; the walk stops at a page without a successor. */
  function ScanFrom(pages: seq<Page>, at: nat, ids: seq<ObjectId>): seq<ObjectId>
    decreases |pages| - at
  {
    if at >= |pages| then ids
    else
      var more := ids + CapsOf(pages[at].objects);
      if pages[at].next.None? then more else ScanFrom(pages, at + 1, more)
  }

  function Scan(pages: seq<Page>): seq<ObjectId> { ScanFrom(pages, 0, []) }

  /** The listing came to a page without a successor. */
  predicate Ends(pages: seq<Page>) { exists i :: 0 <= i < |pages| && pages[i].next.None? }

  function CapsOf(objects: seq<(ObjectId, bool)>): seq<ObjectId> {
    if objects == [] then []
    else
      var last := objects[|objects| - 1];
      CapsOf(objects[..|objects| - 1]) + if last.1 then [last.0] else []
  }

  /** The scanned ids the table does not hold for this network. */
  function Untracked(ids: seq<ObjectId>, known: set<ObjectId>): seq<ObjectId> {
    if ids == [] then []
    else
      Untracked(ids[..|ids| - 1], known) + if ids[|ids| - 1] in known then [] else [ids[|ids| - 1]]
  }

  lemma {:induction false} CapsOfExactly(objects: seq<(ObjectId, bool)>, id: ObjectId)
    ensures id in CapsOf(objects) <==> (id, true) in objects
  {
    if objects != [] {
      var n := |objects| - 1;
      CapsOfExactly(objects[..n], id);
      assert objects == objects[..n] + [objects[n]];
    }
  }

  lemma {:induction false} ScanFromExactly(pages: seq<Page>, at: nat, ids: seq<ObjectId>, id: ObjectId)
    ensures id in ScanFrom(pages, at, ids) <==>
              id in ids || exists i :: at <= i < |pages| && (id, true) in pages[i].objects
                                   && forall k :: at <= k < i ==> pages[k].next.Some?
    decreases |pages| - at
  {
    if at < |pages| {
      var more := ids + CapsOf(pages[at].objects);
      CapsOfExactly(pages[at].objects, id);
      if pages[at].next.Some? { ScanFromExactly(pages, at + 1, more, id); }
    }
  }

  /** An id is scanned exactly when a page lists it as a cap, with no last page before. */
  lemma ScannedExactly(pages: seq<Page>, id: ObjectId)
    ensures id in Scan(pages) <==>
              exists i :: 0 <= i < |pages| && (id, true) in pages[i].objects && forall k :: 0 <= k < i ==> pages[k].next.Some?
  {
    ScanFromExactly(pages, 0, [], id);
  }

  lemma UntrackedIsShorter(ids: seq<ObjectId>, known: set<ObjectId>)
    ensures |Untracked(ids, known)| <= |ids|
  {}

  function KnownOn(rows: seq<Row>, network: Network): set<ObjectId> {
    set i | 0 <= i < |rows| && rows[i].network == network :: rows[i].cap
  }

  // ---------------------------------------------------------------------------
  // Batched reads
  // ---------------------------------------------------------------------------

  function Batch(ids: seq<ObjectId>, start: nat): (b: seq<ObjectId>)
    requires start <= |ids|
    ensures |b| == if start + BATCH <= |ids| then BATCH else |ids| - start
  {
    ids[start..if start + BATCH <= |ids| then start + BATCH else |ids|]
  }

  /** What came back for position `k`: the one batch that covers it, at its place in that batch. */
  function Answer<T>(ids: seq<ObjectId>, reply: BatchReply<T>, k: nat): Option<T>
    requires k < |ids|
  {
    var start := k / BATCH * BATCH;
    match reply(start, Batch(ids, start))
    case None => None
    case Some(objects) => if k - start < |objects| then objects[k - start] else None
  }

  /** Ids answered, in the order first answered, with their latest answers; and ids missed. */
  datatype Found<T> = Found(order: seq<ObjectId>, value: map<ObjectId, T>, missed: set<ObjectId>)
  {
    function Add(id: ObjectId, answer: Option<T>): Found<T> {
      match answer
      case None => this.(missed := missed + {id})
      case Some(v) => Found(if id in value then order else order + [id], value[id := v], missed)
    }
  }

  function Answers<T>(ids: seq<ObjectId>, reply: BatchReply<T>): (r: seq<Option<T>>)
    ensures |r| == |ids|
  {
    seq(|ids|, k requires 0 <= k < |ids| => Answer(ids, reply, k))
  }

  function Collect<T>(ids: seq<ObjectId>, answers: seq<Option<T>>, n: nat): Found<T>
    requires n <= |ids| == |answers|
  {
    if n == 0 then Found([], map[], {})
    else Collect(ids, answers, n - 1).Add(ids[n - 1], answers[n - 1])
  }

  function CollectAll<T>(ids: seq<ObjectId>, reply: BatchReply<T>): Found<T> {
    Collect(ids, Answers(ids, reply), |ids|)
  }

  /** Distinct elements in order of first occurrence. */
  function Distinct(ids: seq<ObjectId>): (r: seq<ObjectId>)
    ensures forall x :: x in r <==> x in ids
    ensures forall i, j :: 0 <= i < j < |r| ==> r[i] != r[j]
  {
    if ids == [] then []
    else
      var r := Distinct(ids[..|ids| - 1]);
      assert ids == ids[..|ids| - 1] + [ids[|ids| - 1]];
      if ids[|ids| - 1] in r then r else r + [ids[|ids| - 1]]
  }

  // ---------------------------------------------------------------------------
  // The pass
  // ---------------------------------------------------------------------------

  /** Everything read off the chain for a list of untracked caps. */
  datatype Facts = Facts(caps: Found<ObjectId>, sessions: Found<Session>)

  function SessionIds(caps: Found<ObjectId>): seq<ObjectId> {
    Distinct(ValuesOf(caps.order, caps.value))
  }

  function ValuesOf(order: seq<ObjectId>, value: map<ObjectId, ObjectId>): seq<ObjectId> {
    if order == [] then []
    else
      var last := order[|order| - 1];
      ValuesOf(order[..|order| - 1], value) + if last in value then [value[last]] else []
  }

  function ReadChain(ids: seq<ObjectId>, env: Replies): Facts {
    var caps := CollectAll(ids, env.caps);
    Facts(caps, CollectAll(SessionIds(caps), env.sessions))
  }

  /** The row for the k-th untracked cap, when all three reads came back. */
  function Resolve(facts: Facts, network: Network, env: Replies, k: nat, cap: ObjectId): Option<Row> {
    if cap in facts.caps.missed || cap !in facts.caps.value then None
    else
      var presign := facts.caps.value[cap];
      if presign !in facts.sessions.value || env.nek(k, presign).None? then None
      else Some(Row(cap, network, facts.sessions.value[presign], env.nek(k, presign).value, SignPipeline.Pending, None))
  }

  /** Attempt `k` counts as failed: no row could be made, or the insert did not answer. */
  predicate Fails(facts: Facts, network: Network, env: Replies, ids: seq<ObjectId>, k: nat)
    requires k < |ids|
  {
    Resolve(facts, network, env, k, ids[k]).None? || env.fate(k) != Reached
  }

  /** Rows and counters after `n` attempts; `foreign` counts rows written without our counting them inserted. */
  datatype Progress = Progress(rows: seq<Row>, conflicts: nat, inserted: nat, failed: nat, foreign: nat)
  {
    function Attempt(others: seq<Row>, row: Option<Row>, fate: InsertFate): (r: Progress)
      ensures rows <= r.rows
      ensures row.Some? && fate == Reached ==> Tracked(r.rows, row.value.cap)
    {
      var before := InsertAll(rows, others);
      var foreign := foreign + |before| - |rows|;
      if row.None? || fate == Refused then this.(rows := before, failed := failed + 1, foreign := foreign)
      else
        var after := Insert(before, row.value);
        if fate == AnswerLost then this.(rows := after, failed := failed + 1, foreign := foreign + |after| - |before|)
        else if |after| == |before| then this.(rows := after, conflicts := conflicts + 1, foreign := foreign)
        else this.(rows := after, inserted := inserted + 1, foreign := foreign)
    }
  }

  function Attempts(rows: seq<Row>, facts: Facts, network: Network, env: Replies, ids: seq<ObjectId>, n: nat): Progress
    requires n <= |ids|
  {
    if n == 0 then Progress(rows, 0, 0, 0, 0)
    else
      Attempts(rows, facts, network, env, ids, n - 1)
        .Attempt(env.others(n - 1), Resolve(facts, network, env, n - 1, ids[n - 1]), env.fate(n - 1))
  }

  /** One whole pass: the rows it leaves and what it reports. */
  function Pass(rows: seq<Row>, network: Network, env: Replies): (seq<Row>, Counts) {
    PassOver(rows, network, env, Scan(env.pages))
  }

  function PassOver(rows: seq<Row>, network: Network, env: Replies, scan: seq<ObjectId>): (seq<Row>, Counts) {
    var ids := Untracked(scan, KnownOn(rows, network));
    var end := Attempts(rows, ReadChain(ids, env), network, env, ids, |ids|);
    UntrackedIsShorter(scan, KnownOn(rows, network));
    (end.rows, Counts(|scan|, |scan| - |ids| + end.conflicts, end.inserted, end.failed))
  }

  // ---------------------------------------------------------------------------
  // The service, loop by loop
  // ---------------------------------------------------------------------------

  method CapsOnPage(objects: seq<(ObjectId, bool)>) returns (ids: seq<ObjectId>)
    ensures ids == CapsOf(objects)
  {
    ids := [];
    for j := 0 to |objects|
      invariant ids == CapsOf(objects[..j])
    {
      assert objects[..j + 1][..j] == objects[..j];
      if objects[j].1 {
        ids := ids + [objects[j].0];
      }
    }
    assert objects[..|objects|] == objects;
  }

  method ListCaps(pages: seq<Page>) returns (ids: seq<ObjectId>, ended: bool)
    ensures ids == Scan(pages) && (ended <==> Ends(pages))
  {
    ids := [];
    var at := 0;
    var more := true;
    while more && at < |pages|
      invariant at <= |pages|
      invariant more ==> forall i :: 0 <= i < at ==> pages[i].next.Some?
      invariant !more ==> at > 0 && pages[at - 1].next.None?
      invariant Scan(pages) == if more then ScanFrom(pages, at, ids) else ids
      decreases |pages| - at
    {
      var caps := CapsOnPage(pages[at].objects);
      ids := ids + caps;
      more := pages[at].next.Some?;
      at := at + 1;
    }
    ended := !more;
  }

  method FilterUntracked(ids: seq<ObjectId>, known: set<ObjectId>) returns (r: seq<ObjectId>)
    ensures r == Untracked(ids, known)
  {
    r := [];
    for k := 0 to |ids|
      invariant r == Untracked(ids[..k], known)
    {
      assert ids[..k + 1][..k] == ids[..k];
      if ids[k] !in known {
        r := r + [ids[k]];
      }
    }
    assert ids[..|ids|] == ids;
  }

  function AnswerIn<T>(got: Option<seq<Option<T>>>, j: nat): Option<T> {
    if got.None? || j >= |got.value| then None else got.value[j]
  }

  lemma AnswerOfBatch<T>(ids: seq<ObjectId>, reply: BatchReply<T>, start: nat, j: nat)
    requires start <= |ids| && start % BATCH == 0 && j < |Batch(ids, start)|
    ensures start + j < |ids| && Batch(ids, start)[j] == ids[start + j]
    ensures Answers(ids, reply)[start + j] == AnswerIn(reply(start, Batch(ids, start)), j)
  {
    assert (start + j) / BATCH * BATCH == start;
  }

  method FetchBatch<T(==)>(ids: seq<ObjectId>, reply: BatchReply<T>, start: nat, before: Found<T>) returns (found: Found<T>)
    requires start < |ids| && start % BATCH == 0
    requires before == Collect(ids, Answers(ids, reply), start)
    ensures found == Collect(ids, Answers(ids, reply), start + |Batch(ids, start)|)
  {
    var batch := Batch(ids, start);
    var got := reply(start, batch);
    found := before;
    ghost var answers := Answers(ids, reply);
    for j := 0 to |batch|
      invariant found == Collect(ids, answers, start + j)
    {
      AnswerOfBatch(ids, reply, start, j);
      found := found.Add(batch[j], AnswerIn(got, j));
    }
  }

  lemma NextStart(start: nat)
    requires start % BATCH == 0
    ensures (start + BATCH) % BATCH == 0
  {}

  /** Read every id, fifty to a request; a failed request misses all of its ids. */
  method FetchAll<T(==)>(ids: seq<ObjectId>, reply: BatchReply<T>) returns (found: Found<T>)
    ensures found == CollectAll(ids, reply)
  {
    found := Found([], map[], {});
    var start := 0;
    ghost var answers := Answers(ids, reply);
    ghost var done := 0;
    while start < |ids|
      invariant start % BATCH == 0
      invariant done <= |ids| && done == (if start <= |ids| then start else |ids|)
      invariant found == Collect(ids, answers, done)
    {
      done := done + |Batch(ids, start)|;
      found := FetchBatch(ids, reply, start, found);
      NextStart(start);
      start := start + BATCH;
    }
  }

  method FetchChain(ids: seq<ObjectId>, env: Replies) returns (facts: Facts)
    ensures facts == ReadChain(ids, env)
  {
    var caps := FetchAll(ids, env.caps);
    var sessions := FetchAll(SessionIds(caps), env.sessions);
    facts := Facts(caps, sessions);
  }

  datatype Outcome = Failed | Inserted | Conflict

  class PresignTable {
    const network: Network
    var rows: seq<Row>

    constructor (network: Network)
      ensures this.network == network && rows == []
    {
      this.network := network;
      rows := [];
    }

    /** One attempt: others may insert first; the unique index refuses a second row for a cap. */
    method TryInsert(others: seq<Row>, row: Option<Row>, fate: InsertFate, ghost done: Progress) returns (outcome: Outcome)
      requires rows == done.rows
      modifies this
      ensures var next := done.Attempt(others, row, fate);
              && rows == next.rows
              && next.failed == done.failed + (if outcome == Failed then 1 else 0)
              && next.inserted == done.inserted + (if outcome == Inserted then 1 else 0)
              && next.conflicts == done.conflicts + (if outcome == Conflict then 1 else 0)
    {
      rows := InsertAll(rows, others);
      if row.None? || fate == Refused {
        outcome := Failed;
      } else {
        var isNew := !Tracked(rows, row.value.cap);
        rows := Insert(rows, row.value);
        outcome := if fate == AnswerLost then Failed else if isNew then Inserted else Conflict;
      }
    }

    method AttemptAll(ids: seq<ObjectId>, facts: Facts, env: Replies) returns (conflicts: nat, inserted: nat, failed: nat)
      modifies this
      ensures var end := Attempts(old(rows), facts, network, env, ids, |ids|);
              rows == end.rows && conflicts == end.conflicts && inserted == end.inserted && failed == end.failed
    {
      conflicts, inserted, failed := 0, 0, 0;
      ghost var start := rows;
      ghost var done := Progress(rows, 0, 0, 0, 0);
      for k := 0 to |ids|
        invariant done == Attempts(start, facts, network, env, ids, k)
        invariant rows == done.rows && inserted == done.inserted && failed == done.failed && conflicts == done.conflicts
      {
        var row := Resolve(facts, network, env, k, ids[k]);
        var outcome := TryInsert(env.others(k), row, env.fate(k), done);
        done := done.Attempt(env.others(k), row, env.fate(k));
        match outcome {
          case Failed => failed := failed + 1;
          case Inserted => inserted := inserted + 1;
          case Conflict => conflicts := conflicts + 1;
        }
      }
    }

    method Discover(env: Replies) returns (r: Result<Counts, DiscoverError>)
      modifies this
      ensures r.Err? <==> !Ends(env.pages)
      ensures r.Err? ==> rows == old(rows)
      ensures r.Ok? ==> (rows, r.value) == Pass(old(rows), network, env)
    {
      var scan, ended := ListCaps(env.pages);
      if !ended {
        return Err(ListingFailed);
      }
      var counts := TrackScanned(scan, env);
      return Ok(counts);
    }

    method TrackScanned(scan: seq<ObjectId>, env: Replies) returns (counts: Counts)
      modifies this
      ensures (rows, counts) == PassOver(old(rows), network, env, scan)
    {
      var ids := FilterUntracked(scan, KnownOn(rows, network));
      UntrackedIsShorter(scan, KnownOn(rows, network));
      var facts := FetchChain(ids, env);
      var conflicts, inserted, failed := AttemptAll(ids, facts, env);
      counts := Counts(|scan|, |scan| - |ids| + conflicts, inserted, failed);
    }
  }

  // ---------------------------------------------------------------------------
  // What a pass achieves
  // ---------------------------------------------------------------------------

  function FailuresUpTo(facts: Facts, network: Network, env: Replies, ids: seq<ObjectId>, n: nat): nat
    requires n <= |ids|
  {
    if n == 0 then 0
    else FailuresUpTo(facts, network, env, ids, n - 1) + if Fails(facts, network, env, ids, n - 1) then 1 else 0
  }

  /** One attempt: counted once, and only additions to the table. */
  lemma AttemptCounts(p: Progress, others: seq<Row>, row: Option<Row>, fate: InsertFate)
    ensures var next := p.Attempt(others, row, fate);
            && next.conflicts + next.inserted + next.failed == p.conflicts + p.inserted + p.failed + 1
            && next.failed == p.failed + (if row.None? || fate != Reached then 1 else 0)
            && |next.rows| - next.inserted - next.foreign == |p.rows| - p.inserted - p.foreign
            && p.rows <= next.rows && (UniqueCaps(p.rows) ==> UniqueCaps(next.rows))
  {}

  /** The counters after n attempts: every attempt is counted once, and failures exactly where a reply failed. */
  lemma {:induction false} AttemptsCount(rows: seq<Row>, facts: Facts, network: Network, env: Replies, ids: seq<ObjectId>, n: nat)
    requires n <= |ids|
    ensures var end := Attempts(rows, facts, network, env, ids, n);
            && end.conflicts + end.inserted + end.failed == n
            && end.failed == FailuresUpTo(facts, network, env, ids, n)
            && |end.rows| == |rows| + end.inserted + end.foreign
            && rows <= end.rows
            && (UniqueCaps(rows) ==> UniqueCaps(end.rows))
  {
    if n > 0 {
      AttemptsCount(rows, facts, network, env, ids, n - 1);
      AttemptCounts(Attempts(rows, facts, network, env, ids, n - 1), env.others(n - 1),
                    Resolve(facts, network, env, n - 1, ids[n - 1]), env.fate(n - 1));
    }
  }

  /**
   * Conservation: whatever the node answers and whoever else inserts, every scanned cap is
   * counted once, nothing already in the table is touched, and no cap gets a second row.
   */
  lemma PassConserves(rows: seq<Row>, network: Network, env: Replies)
    requires UniqueCaps(rows)
    ensures var (after, counts) := Pass(rows, network, env);
            && counts.scanned == |Scan(env.pages)|
            && counts.scanned == counts.alreadyTracked + counts.inserted + counts.failed
            && rows <= after && UniqueCaps(after)
            && |after| >= |rows| + counts.inserted
  {
    var scan := Scan(env.pages);
    var ids := Untracked(scan, KnownOn(rows, network));
    AttemptsCount(rows, ReadChain(ids, env), network, env, ids, |ids|);
    UntrackedIsShorter(scan, KnownOn(rows, network));
  }

  lemma StillTracked(rows: seq<Row>, after: seq<Row>, cap: ObjectId)
    requires rows <= after && Tracked(rows, cap)
    ensures Tracked(after, cap)
  {
    var i :| 0 <= i < |rows| && rows[i].cap == cap;
    assert after[i].cap == cap;
  }

  lemma {:induction false} AttemptTracks(rows: seq<Row>, facts: Facts, network: Network, env: Replies, ids: seq<ObjectId>, n: nat, k: nat)
    requires k < n <= |ids| && !Fails(facts, network, env, ids, k)
    ensures Tracked(Attempts(rows, facts, network, env, ids, n).rows, ids[k])
  {
    if k < n - 1 {
      var before := Attempts(rows, facts, network, env, ids, n - 1).rows;
      AttemptTracks(rows, facts, network, env, ids, n - 1, k);
      StillTracked(before, Attempts(rows, facts, network, env, ids, n).rows, ids[k]);
    }
  }

  lemma {:induction false} ScannedIsKnownOrUntracked(ids: seq<ObjectId>, known: set<ObjectId>, cap: ObjectId)
    requires cap in ids
    ensures cap in known || cap in Untracked(ids, known)
  {
    var last := |ids| - 1;
    if ids[last] != cap {
      assert ids == ids[..last] + [ids[last]];
      ScannedIsKnownOrUntracked(ids[..last], known, cap);
    }
  }

  ghost predicate FailedOn(facts: Facts, network: Network, env: Replies, ids: seq<ObjectId>, cap: ObjectId) {
    exists k :: 0 <= k < |ids| && ids[k] == cap && Fails(facts, network, env, ids, k)
  }

  /** After a pass, a scanned cap has a row unless an attempt at it is among the failures counted. */
  lemma ScannedCapIsTrackedOrFailed(rows: seq<Row>, network: Network, env: Replies, cap: ObjectId)
    requires cap in Scan(env.pages)
    ensures var ids := Untracked(Scan(env.pages), KnownOn(rows, network));
            Tracked(Pass(rows, network, env).0, cap) || FailedOn(ReadChain(ids, env), network, env, ids, cap)
  {
    var scan := Scan(env.pages);
    var ids := Untracked(scan, KnownOn(rows, network));
    var facts := ReadChain(ids, env);
    ScannedIsKnownOrUntracked(scan, KnownOn(rows, network), cap);
    if cap in ids {
      var k :| 0 <= k < |ids| && ids[k] == cap;
      if !Fails(facts, network, env, ids, k) { AttemptTracks(rows, facts, network, env, ids, |ids|, k); }
    } else {
      assert cap in KnownOn(rows, network);
      assert Tracked(rows, cap);
      AttemptsCount(rows, facts, network, env, ids, |ids|);
      StillTracked(rows, Attempts(rows, facts, network, env, ids, |ids|).rows, cap);
      assert Tracked(Attempts(rows, facts, network, env, ids, |ids|).rows, cap);
    }
    assert Pass(rows, network, env).0 == Attempts(rows, facts, network, env, ids, |ids|).rows;
  }

  lemma {:induction false} FailuresMissNone(facts: Facts, network: Network, env: Replies, ids: seq<ObjectId>, n: nat, k: nat)
    requires k < n <= |ids| && FailuresUpTo(facts, network, env, ids, n) == 0
    ensures !Fails(facts, network, env, ids, k)
  {
    if k < n - 1 { FailuresMissNone(facts, network, env, ids, n - 1, k); }
  }

  /** A pass that reports no failure leaves every scanned cap with a row; PassConserves says it has no second. */
  lemma NoFailureTracksAll(rows: seq<Row>, network: Network, env: Replies, cap: ObjectId)
    requires Pass(rows, network, env).1.failed == 0 && cap in Scan(env.pages)
    ensures Tracked(Pass(rows, network, env).0, cap)
  {
    var ids := Untracked(Scan(env.pages), KnownOn(rows, network));
    var facts := ReadChain(ids, env);
    ScannedCapIsTrackedOrFailed(rows, network, env, cap);
    AttemptsCount(rows, facts, network, env, ids, |ids|);
    if FailedOn(facts, network, env, ids, cap) {
      var k :| 0 <= k < |ids| && ids[k] == cap && Fails(facts, network, env, ids, k);
      FailuresMissNone(facts, network, env, ids, |ids|, k);
    }
  }

  lemma {:induction false} UntrackedAreScanned(ids: seq<ObjectId>, known: set<ObjectId>, cap: ObjectId)
    requires cap in Untracked(ids, known)
    ensures cap in ids
  {
    var last := |ids| - 1;
    if cap in Untracked(ids[..last], known) { UntrackedAreScanned(ids[..last], known, cap); }
  }

  lemma AttemptOnTracked(p: Progress, others: seq<Row>, row: Option<Row>, fate: InsertFate)
    requires row.Some? ==> Tracked(p.rows, row.value.cap)
    ensures p.Attempt(others, row, fate).inserted == p.inserted
  {
    if row.Some? { StillTracked(p.rows, InsertAll(p.rows, others), row.value.cap); }
  }

  lemma TrackedStep(rows: seq<Row>, p: Progress, facts: Facts, network: Network, env: Replies, k: nat, cap: ObjectId)
    requires rows <= p.rows && Tracked(rows, cap)
    ensures p.Attempt(env.others(k), Resolve(facts, network, env, k, cap), env.fate(k)).inserted == p.inserted
  {
    StillTracked(rows, p.rows, cap);
    AttemptOnTracked(p, env.others(k), Resolve(facts, network, env, k, cap), env.fate(k));
  }

  lemma {:induction false} NothingNewToInsert(rows: seq<Row>, facts: Facts, network: Network, env: Replies, ids: seq<ObjectId>, n: nat)
    requires n <= |ids| && forall k :: 0 <= k < |ids| ==> Tracked(rows, ids[k])
    ensures Attempts(rows, facts, network, env, ids, n).inserted == 0
    ensures rows <= Attempts(rows, facts, network, env, ids, n).rows
  {
    if n > 0 {
      NothingNewToInsert(rows, facts, network, env, ids, n - 1);
      TrackedStep(rows, Attempts(rows, facts, network, env, ids, n - 1), facts, network, env, n - 1, ids[n - 1]);
    }
  }

  /** After a clean pass, no later pass over the same caps inserts anything, whatever it is told. */
  lemma SecondPassInsertsNothing(rows: seq<Row>, later: seq<Row>, network: Network, first: Replies, second: Replies)
    requires Pass(rows, network, first).1.failed == 0 && Pass(rows, network, first).0 <= later
    requires forall cap :: cap in Scan(second.pages) ==> cap in Scan(first.pages)
    ensures Pass(later, network, second).1.inserted == 0
  {
    var ids := Untracked(Scan(second.pages), KnownOn(later, network));
    forall k | 0 <= k < |ids| ensures Tracked(later, ids[k]) {
      UntrackedAreScanned(Scan(second.pages), KnownOn(later, network), ids[k]);
      NoFailureTracksAll(rows, network, first, ids[k]);
      StillTracked(Pass(rows, network, first).0, later, ids[k]);
    }
    NothingNewToInsert(later, ReadChain(ids, second), network, second, ids, |ids|);
  }

  // ---------------------------------------------------------------------------
  // What the rows say
  // ---------------------------------------------------------------------------

  datatype ChainView = ChainView(presign: map<ObjectId, ObjectId>, session: map<ObjectId, Session>, nek: map<ObjectId, ObjectId>)
  {
    /** The row that tells the truth about a cap. */
    ghost predicate Describes(row: Row, network: Network) {
      && row.cap in presign && presign[row.cap] in session && presign[row.cap] in nek
      && row == Row(row.cap, network, session[presign[row.cap]], nek[presign[row.cap]], SignPipeline.Pending, None)
    }
  }

  /** Whatever a batched read does answer about an id is what the chain holds under it. */
  ghost predicate Faithful<T(!new)>(reply: BatchReply<T>, truth: map<ObjectId, T>) {
    forall start: nat, ids: seq<ObjectId>, j: nat ::
      j < |ids| && AnswerIn(reply(start, ids), j).Some? ==>
        ids[j] in truth && AnswerIn(reply(start, ids), j).value == truth[ids[j]]
  }

  ghost predicate Truthful(env: Replies, chain: ChainView) {
    && Faithful(env.caps, chain.presign)
    && Faithful(env.sessions, chain.session)
    && forall k: nat, presign: ObjectId :: env.nek(k, presign).Some? ==>
         presign in chain.nek && env.nek(k, presign).value == chain.nek[presign]
  }

  lemma AnswerIsTrue<T(!new)>(ids: seq<ObjectId>, reply: BatchReply<T>, truth: map<ObjectId, T>, k: nat)
    requires Faithful(reply, truth) && k < |ids| && Answers(ids, reply)[k].Some?
    ensures ids[k] in truth && Answers(ids, reply)[k].value == truth[ids[k]]
  {
    var start := k / BATCH * BATCH;
    var j := k - start;
    assert Answers(ids, reply)[k] == AnswerIn(reply(start, Batch(ids, start)), j);
    assert Batch(ids, start)[j] == ids[k];
  }

  lemma {:induction false} CollectedIsTrue<T(!new)>(ids: seq<ObjectId>, reply: BatchReply<T>, truth: map<ObjectId, T>, n: nat, id: ObjectId)
    requires Faithful(reply, truth) && n <= |ids| && id in Collect(ids, Answers(ids, reply), n).value
    ensures id in truth && Collect(ids, Answers(ids, reply), n).value[id] == truth[id]
  {
    if n > 0 {
      if ids[n - 1] == id && Answers(ids, reply)[n - 1].Some? {
        AnswerIsTrue(ids, reply, truth, n - 1);
      } else {
        CollectedIsTrue(ids, reply, truth, n - 1, id);
      }
    }
  }

  lemma ResolvedIsTrue(ids: seq<ObjectId>, network: Network, env: Replies, chain: ChainView, k: nat, cap: ObjectId)
    requires Truthful(env, chain) && Resolve(ReadChain(ids, env), network, env, k, cap).Some?
    ensures chain.Describes(Resolve(ReadChain(ids, env), network, env, k, cap).value, network)
  {
    var facts := ReadChain(ids, env);
    var presigns := SessionIds(facts.caps);
    CollectedIsTrue(ids, env.caps, chain.presign, |ids|, cap);
    CollectedIsTrue(presigns, env.sessions, chain.session, |presigns|, facts.caps.value[cap]);
  }

  ghost predicate ByOthers(env: Replies, n: nat, row: Row) { exists k: nat :: k < n && row in env.others(k) }

  lemma AttemptAdds(p: Progress, others: seq<Row>, row: Option<Row>, fate: InsertFate, i: nat)
    requires i < |p.Attempt(others, row, fate).rows|
    ensures var added := p.Attempt(others, row, fate).rows[i];
            (i < |p.rows| && added == p.rows[i]) || added in others || Some(added) == row
  {}

  ghost predicate Described(facts: Facts, network: Network, env: Replies, chain: ChainView, ids: seq<ObjectId>) {
    forall k :: 0 <= k < |ids| && Resolve(facts, network, env, k, ids[k]).Some? ==>
      chain.Describes(Resolve(facts, network, env, k, ids[k]).value, network)
  }

  lemma {:induction false} AddedRowsAreTrue(
      rows: seq<Row>, facts: Facts, network: Network, env: Replies, chain: ChainView, ids: seq<ObjectId>, n: nat, i: nat)
    requires n <= |ids| && Described(facts, network, env, chain, ids)
    requires |rows| <= i < |Attempts(rows, facts, network, env, ids, n).rows|
    ensures var row := Attempts(rows, facts, network, env, ids, n).rows[i];
            ByOthers(env, n, row) || chain.Describes(row, network)
  {
    if n > 0 {
      var was := Attempts(rows, facts, network, env, ids, n - 1);
      var row := Resolve(facts, network, env, n - 1, ids[n - 1]);
      AttemptAdds(was, env.others(n - 1), row, env.fate(n - 1), i);
      if i < |was.rows| { AddedRowsAreTrue(rows, facts, network, env, chain, ids, n - 1, i); }
    }
  }

  /** Under a truthful node, every row a pass adds carries the chain's own curve, algorithm and key. */
  lemma InsertedRowsAreTheChains(rows: seq<Row>, network: Network, env: Replies, chain: ChainView, i: nat)
    requires Truthful(env, chain) && |rows| <= i < |Pass(rows, network, env).0|
    ensures var row := Pass(rows, network, env).0[i];
            ByOthers(env, |Scan(env.pages)|, row) || chain.Describes(row, network)
  {
    var scan := Scan(env.pages);
    var ids := Untracked(scan, KnownOn(rows, network));
    var facts := ReadChain(ids, env);
    UntrackedIsShorter(scan, KnownOn(rows, network));
    forall k | 0 <= k < |ids| && Resolve(facts, network, env, k, ids[k]).Some?
      ensures chain.Describes(Resolve(facts, network, env, k, ids[k]).value, network)
    {
      ResolvedIsTrue(ids, network, env, chain, k, ids[k]);
    }
    AddedRowsAreTrue(rows, facts, network, env, chain, ids, |ids|, i);
  }

  // ---------------------------------------------------------------------------
  // When an attempt can succeed
  // ---------------------------------------------------------------------------

  lemma {:induction false} CollectedExactly<T>(ids: seq<ObjectId>, answers: seq<Option<T>>, n: nat, id: ObjectId)
    requires n <= |ids| == |answers|
    ensures id in Collect(ids, answers, n).missed <==> exists k :: 0 <= k < n && ids[k] == id && answers[k].None?
    ensures id in Collect(ids, answers, n).value <==> exists k :: 0 <= k < n && ids[k] == id && answers[k].Some?
  {
    if n > 0 { CollectedExactly(ids, answers, n - 1, id); }
  }

  /**
   * A cap resolves exactly when every read of it came back, the read of its session did, and that
   * of its key: one missing answer, and only that, makes the attempt fail.
   */
  lemma ResolvesExactly(ids: seq<ObjectId>, network: Network, env: Replies, k: nat, cap: ObjectId)
    ensures var facts := ReadChain(ids, env);
            var sessions := SessionIds(facts.caps);
            Resolve(facts, network, env, k, cap).Some? <==>
              && cap in ids
              && (forall j :: 0 <= j < |ids| && ids[j] == cap ==> Answer(ids, env.caps, j).Some?)
              && cap in facts.caps.value
              && (exists m :: 0 <= m < |sessions| && sessions[m] == facts.caps.value[cap] && Answer(sessions, env.sessions, m).Some?)
              && env.nek(k, facts.caps.value[cap]).Some?
  {
    var facts := ReadChain(ids, env);
    var sessions := SessionIds(facts.caps);
    CollectedExactly(ids, Answers(ids, env.caps), |ids|, cap);
    if cap in facts.caps.value {
      CollectedExactly(sessions, Answers(sessions, env.sessions), |sessions|, facts.caps.value[cap]);
    }
  }
}
