/**
 * The presign table one SQL statement at a time, from any number of processes and with no
 * assumption about timing: every statement that writes the table may run at any moment.
 */
module PresignStatements {
  import opened Common
  import opened SignPipeline

  datatype Statement =
    | InsertPending(row: PresignId, cap: CapId, bucket: Bucket)
    | Promote(row: PresignId)                             // by id: the status was read earlier
    | Allocate(bucket: Bucket, request: RequestId, pick: Option<PresignId>)
    | MarkConsumedPending(row: PresignId)
    | MarkUsed(row: PresignId)
    | ToReady(row: PresignId)                             // a worker's or a reconciliation's rollback
    | RescueAllocated(rows: set<PresignId>)
    | ParkConsumed(rows: set<PresignId>)
    | QuarantineCap(cap: CapId)

  datatype ClaimRecord = ClaimRecord(presign: PresignId, request: RequestId, bucket: Bucket)

  /**
   * The table and its history: claims made, how often each row was set ready, and how often
   * a ready row was overwritten by something other than a claim.
   */
  datatype State = State(pool: Pool, claims: seq<ClaimRecord>, readied: multiset<PresignId>, wasted: multiset<PresignId>)

  /** The statements' own WHERE clauses, and fresh keys for inserts. */
  predicate Enabled(pool: Pool, s: Statement) {
    match s
    case InsertPending(p, _, _) => p !in pool
    case Allocate(bucket, _, pick) => pick.Some? ==> Claimable(pool, pick.value, bucket)
    case RescueAllocated(rows) => forall p :: p in rows ==> p in pool && pool[p].status == Allocated
    case ParkConsumed(rows) => forall p :: p in rows ==> p in pool && pool[p].status == ConsumedPending
    case _ => true
  }

  function Step(pool: Pool, s: Statement): Pool
    requires Enabled(pool, s)
  {
    match s
    case InsertPending(p, cap, bucket) => pool[p := Presign(cap, bucket, Pending, None)]
    case Promote(p) => SetStatus(pool, p, Ready)
    case Allocate(_, r, pick) => if pick.Some? then Claim(pool, pick.value, r) else pool
    case MarkConsumedPending(p) => SetStatus(pool, p, ConsumedPending)
    case MarkUsed(p) => SetStatus(pool, p, Used)
    case ToReady(p) => RollbackToReady(pool, p)
    case RescueAllocated(rows) => Sweep(pool, rows, {})
    case ParkConsumed(rows) => Sweep(pool, {}, rows)
    case QuarantineCap(cap) => Quarantine(pool, cap)
  }

  /** Rows a statement sets ready. */
  function Readies(pool: Pool, s: Statement): set<PresignId> {
    match s
    case Promote(p) => {p} * pool.Keys
    case ToReady(p) => {p} * pool.Keys
    case RescueAllocated(rows) => rows * pool.Keys
    case _ => {}
  }

  /** Ready rows a statement overwrites without claiming them. */
  function Wastes(pool: Pool, s: Statement): set<PresignId> {
    set p | p in pool && pool[p].status == Ready && Overwrites(pool[p].cap, p, s)
  }

  predicate Overwrites(c: CapId, p: PresignId, s: Statement) {
    match s
    case Promote(q) => p == q
    case MarkConsumedPending(q) => p == q
    case MarkUsed(q) => p == q
    case ToReady(q) => p == q
    case QuarantineCap(cap) => c == cap
    case _ => false
  }

  function Record(s: Statement): seq<ClaimRecord> {
    if s.Allocate? && s.pick.Some? then [ClaimRecord(s.pick.value, s.request, s.bucket)] else []
  }

  function Execute(w: State, s: Statement): State
    requires Enabled(w.pool, s)
  {
    State(Step(w.pool, s), w.claims + Record(s), w.readied + multiset(Readies(w.pool, s)), w.wasted + multiset(Wastes(w.pool, s)))
  }

  /** The table after a run; statements that were not enabled change nothing. */
  function After(ss: seq<Statement>): State {
    if ss == [] then State(map[], [], multiset{}, multiset{})
    else
      var w := After(ss[..|ss| - 1]);
      if Enabled(w.pool, ss[|ss| - 1]) then Execute(w, ss[|ss| - 1]) else w
  }

  function ClaimsOf(claims: seq<ClaimRecord>, p: PresignId): nat {
    if claims == [] then 0
    else ClaimsOf(claims[..|claims| - 1], p) + if claims[|claims| - 1].presign == p then 1 else 0
  }

  function LastClaim(claims: seq<ClaimRecord>, p: PresignId): Option<ClaimRecord> {
    if claims == [] then None
    else if claims[|claims| - 1].presign == p then Some(claims[|claims| - 1])
    else LastClaim(claims[..|claims| - 1], p)
  }

  function IsReady(pool: Pool, p: PresignId): nat { if p in pool && pool[p].status == Ready then 1 else 0 }

  /** Every time a row was set ready is accounted for: claimed, overwritten, or ready still. */
  predicate Conserved(w: State, p: PresignId) {
    w.readied[p] == ClaimsOf(w.claims, p) + w.wasted[p] + IsReady(w.pool, p)
  }

  /** The recorded owner, if any, is the latest claimer, and matched the row's bucket. */
  predicate OwnedByLastClaimer(w: State, p: PresignId) {
    && (p in w.pool && w.pool[p].owner.Some? ==>
          LastClaim(w.claims, p).Some? && w.pool[p].owner == Some(LastClaim(w.claims, p).value.request))
    && (p in w.pool && w.pool[p].status == Allocated ==>
          w.pool[p].owner.Some?)
  }

  predicate BucketsMatch(w: State) {
    forall i :: 0 <= i < |w.claims| ==>
      w.claims[i].presign in w.pool && w.pool[w.claims[i].presign].bucket == w.claims[i].bucket
  }

  lemma OneMoreClaim(claims: seq<ClaimRecord>, s: Statement, p: PresignId)
    ensures ClaimsOf(claims + Record(s), p) == ClaimsOf(claims, p) + |if s.Allocate? && s.pick == Some(p) then [0] else []|
    ensures LastClaim(claims + Record(s), p)
            == if s.Allocate? && s.pick == Some(p) then Some(ClaimRecord(p, s.request, s.bucket)) else LastClaim(claims, p)
  {
    if Record(s) == [] {
      assert claims + Record(s) == claims;
    } else {
      assert (claims + Record(s))[..|claims|] == claims;
    }
  }

  lemma StepConserves(w: State, s: Statement, p: PresignId)
    requires Enabled(w.pool, s) && Conserved(w, p)
    ensures Conserved(Execute(w, s), p)
  {
    OneMoreClaim(w.claims, s, p);
  }

  lemma StepKeepsOwner(w: State, s: Statement, p: PresignId)
    requires Enabled(w.pool, s) && OwnedByLastClaimer(w, p)
    ensures OwnedByLastClaimer(Execute(w, s), p)
  {
    OneMoreClaim(w.claims, s, p);
  }

  lemma StepKeepsBuckets(w: State, s: Statement)
    requires Enabled(w.pool, s) && BucketsMatch(w)
    ensures BucketsMatch(Execute(w, s))
    ensures forall p :: p in w.pool ==> p in Step(w.pool, s) && Step(w.pool, s)[p].bucket == w.pool[p].bucket
  {}

  /**
   * Whatever statements run, in whatever order: each claim of a presign uses up one write that
   * set it ready, the owner on a row is its latest claimer, and a claimed row's network, curve,
   * algorithm and key are the claimer's for good.
   */
  lemma {:induction false} AnyRun(ss: seq<Statement>, p: PresignId)
    ensures Conserved(After(ss), p)
    ensures OwnedByLastClaimer(After(ss), p)
    ensures BucketsMatch(After(ss))
  {
    if ss != [] {
      var rest, s := ss[..|ss| - 1], ss[|ss| - 1];
      AnyRun(rest, p);
      if Enabled(After(rest).pool, s) {
        StepConserves(After(rest), s, p);
        StepKeepsOwner(After(rest), s, p);
        StepKeepsBuckets(After(rest), s);
      }
    }
  }

  lemma ClaimsNeverExceedReadyWrites(ss: seq<Statement>, p: PresignId)
    ensures ClaimsOf(After(ss).claims, p) + IsReady(After(ss).pool, p) <= After(ss).readied[p]
  {
    AnyRun(ss, p);
  }

  /**
   * The promotion's write does not check the status again: two passes that both read a row as
   * pending let two requests claim it, with no sweep and no rollback in between.
   */
  lemma StalePromotionClaimsTwice(cap: CapId, bucket: Bucket) returns (ss: seq<Statement>)
    ensures ss == [InsertPending(0, cap, bucket), Statement.Promote(0), Allocate(bucket, 1, Some(0)),
                   Statement.Promote(0), Allocate(bucket, 2, Some(0))]
    ensures After(ss).claims == [ClaimRecord(0, 1, bucket), ClaimRecord(0, 2, bucket)]
  {
    var ready := Presign(cap, bucket, Ready, None);
    var w1 := AfterNext([], InsertPending(0, cap, bucket));
    var w2 := AfterNext(w1, Statement.Promote(0));
    assert After(w2).pool == map[0 := ready];
    var w3 := AfterNext(w2, Allocate(bucket, 1, Some(0)));
    assert After(w3).pool == map[0 := ready.(status := Allocated, owner := Some(1))];
    var w4 := AfterNext(w3, Statement.Promote(0));
    assert After(w4).pool == map[0 := ready.(owner := Some(1))];
    ss := AfterNext(w4, Allocate(bucket, 2, Some(0)));
  }

  lemma AfterNext(ss: seq<Statement>, s: Statement) returns (next: seq<Statement>)
    requires Enabled(After(ss).pool, s)
    ensures next == ss + [s]
    ensures After(next).pool == Step(After(ss).pool, s) && After(next).claims == After(ss).claims + Record(s)
  {
    next := ss + [s];
    assert next[..|ss|] == ss;
  }
}
