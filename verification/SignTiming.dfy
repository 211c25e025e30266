/** What the sign pipeline leaves to timing and to the gas pool, and what exactly depends on it. */
module SignTiming {
  import opened Common
  import opened Ledger
  import opened SignPipeline
  import opened SignInvariant
  import opened SignRuns
  import opened SignTheorems
  import TxExecutor

  // ---------------------------------------------------------------------------
  // Sweeping an allocated presign too early
  // ---------------------------------------------------------------------------

  /** One event sequence leads from one world to another, timing assumptions apart. */
  ghost predicate Leads(w: World, es: seq<Event>, w': World)
    decreases |es|
  {
    if es == [] then w == w' else Possible(w, es[0]) && Leads(Next(w, es[0]), es[1..], w')
  }

  lemma {:induction false} LeadsOn(w: World, es: seq<Event>, w': World, fs: seq<Event>, w'': World)
    requires Leads(w, es, w') && Leads(w', fs, w'')
    ensures Leads(w, es + fs, w'')
    decreases |es|
  {
    if es == [] {
      assert es + fs == fs;
    } else {
      LeadsOn(Next(w, es[0]), es[1..], w', fs, w'');
      assert (es + fs)[1..] == es[1..] + fs;
    }
  }

  /** Two live requests linked to one presign. */
  predicate Shared(w: World, r: RequestId, s: RequestId, p: PresignId) {
    && r != s && r in w.requests.rows && s in w.requests.rows
    && w.requests.rows[r].Active() && w.requests.rows[r].presign == Some(p)
    && w.requests.rows[s].Active() && w.requests.rows[s].presign == Some(p)
  }

  /**
   * Whenever a sweep rescues a presign that a prepared or queued request still links, the next
   * prepare that picks it ends up sharing it.
   */
  lemma EarlySweepShares(w: World, r: RequestId, p: PresignId, rescued: set<PresignId>, a: PrepareArgs)
    requires p in rescued && p in w.pool && w.chain.Alive(w.pool[p].cap)
    requires r in w.requests.rows && w.requests.rows[r].Active() && w.requests.rows[r].presign == Some(p)
    requires a.newId !in w.requests.rows && a.idem !in w.requests.index
    requires a.dwallet.Active? && a.nek.Some? && a.pick == Some(p) && a.reachable
    requires w.pool[p].bucket == Bucket(a.idem.network, a.dwallet.curve, a.algorithm, a.nek.value)
    requires ChargeOp(w.book, SignArgs(a.idem, a.newId, w.price)).1.Ok?
    ensures Shared(Prepare(w.(pool := Sweep(w.pool, rescued, {})), a).0, r, a.newId, p)
  {
    var swept := w.(pool := Sweep(w.pool, rescued, {}));
    assert Claimable(swept.pool, p, w.pool[p].bucket);
    SweptReserve(Inserted(swept, a, a.dwallet.curve), r, p, a);
  }

  lemma SweptReserve(w: World, r: RequestId, p: PresignId, a: PrepareArgs)
    requires r != a.newId && r in w.requests.rows && w.requests.rows[r].Active() && w.requests.rows[r].presign == Some(p)
    requires a.newId in w.requests.rows && w.requests.rows[a.newId].status == SignStatus.Prepared
    requires a.nek.Some? && a.pick == Some(p) && a.reachable
    requires Claimable(w.pool, p, Bucket(a.idem.network, w.requests.rows[a.newId].curve, a.algorithm, a.nek.value))
    requires w.chain.Alive(w.pool[p].cap)
    ensures Shared(Reserve(w, a).0, r, a.newId, p)
  {
  }

  const STOCK := Bucket(Testnet, 0, 0, 0)

  const ALICE := IdemKey(1, Testnet, "a")

  const BOB := IdemKey(2, Testnet, "b")

  function PrepareFor(idem: IdemKey, id: RequestId): PrepareArgs {
    PrepareArgs(idem, 0, Active(0), Some(0), id, Some(0), true)
  }

  function Deposited5(user: UserId, digest: string): DepositArgs {
    DepositArgs(Account(user, Testnet), digest, [Coin("0x2::sui::SUI", 5)])
  }

  function Stocked(status: PresignStatus, owner: Option<RequestId>): World {
    Start(1).(pool := map[0 := Presign(7, STOCK, status, owner)], chain := Chain(map[7 := STOCK], map[], map[]))
  }

  const DEPOSITS := [Deposit(Account(1, Testnet), "d1", 5), Deposit(Account(2, Testnet), "d2", 5)]

  function Funded(): World {
    Stocked(Ready, None).(book := Book(map[Account(1, Testnet) := 5, Account(2, Testnet) := 5], [], DEPOSITS))
  }

  function AlicePrepared(): World {
    Stocked(Allocated, Some(10)).(
      book := Book(map[Account(1, Testnet) := 4, Account(2, Testnet) := 5], [Entry(1, OpKey(Testnet, Sign, 10, Charge), -1)], DEPOSITS),
      requests := Requests(map[10 := Request(ALICE, 0, 0, Some(0), SignStatus.Prepared, None, false)], map[ALICE := 10]))
  }

  lemma StockArrives()
    ensures Leads(Start(1), [Mint(7, STOCK), Track(0, 7), Promote(0)], Stocked(Ready, None))
  {
    var w1 := Next(Start(1), Mint(7, STOCK));
    LeadsOne(Start(1), Mint(7, STOCK));
    assert Next(w1, Track(0, 7)) == Stocked(Pending, None);
    LeadsOne(w1, Track(0, 7));
    assert Next(Stocked(Pending, None), Promote(0)) == Stocked(Ready, None);
    LeadsOne(Stocked(Pending, None), Promote(0));
    LeadsOn(w1, [Track(0, 7)], Stocked(Pending, None), [Promote(0)], Stocked(Ready, None));
    LeadsOn(Start(1), [Mint(7, STOCK)], w1, [Track(0, 7)] + [Promote(0)], Stocked(Ready, None));
    assert [Mint(7, STOCK)] + ([Track(0, 7)] + [Promote(0)]) == [Mint(7, STOCK), Track(0, 7), Promote(0)];
  }

  lemma LeadsOne(w: World, e: Event)
    requires Possible(w, e)
    ensures Leads(w, [e], Next(w, e))
  {
    assert [e][1..] == [];
  }

  lemma DepositWorks(b: Book, user: UserId, digest: string)
    requires !Credited(b.deposits, digest) && Account(user, Testnet) !in b.accounts
    ensures DepositOp(b, Deposited5(user, digest)).0 ==
              b.(accounts := b.accounts[Account(user, Testnet) := 5],
                 deposits := b.deposits + [Deposit(Account(user, Testnet), digest, 5)])
  {
    var rows := Ledger.Rows(Deposited5(user, digest), 1);
    assert rows == [Deposit(Account(user, Testnet), digest, 5)] && rows[..0] == [];
    assert b.deposits + [] == b.deposits;
    assert Credits(rows) == Credits(rows[..0]) + 5;
    var a := Account(user, Testnet);
    assert b.accounts[a := 0][a := 5] == b.accounts[a := 5];
    InsertStep(b.deposits, rows, 0);
    assert rows[..1] == rows;
  }

  lemma UsersFund()
    ensures Leads(Stocked(Ready, None), [Bill(DepositTx(Deposited5(1, "d1"))), Bill(DepositTx(Deposited5(2, "d2")))], Funded())
  {
    var es := [Bill(DepositTx(Deposited5(1, "d1"))), Bill(DepositTx(Deposited5(2, "d2")))];
    var w := Stocked(Ready, None);
    DepositWorks(w.book, 1, "d1");
    var b1 := DepositOp(w.book, Deposited5(1, "d1")).0;
    assert "d1" != "d2" by { assert "d1"[1] != "d2"[1]; }
    DepositWorks(b1, 2, "d2");
    assert DepositOp(b1, Deposited5(2, "d2")).0 == Funded().book;
    assert es[1..][1..] == [];
  }

  lemma AlicePrepares()
    ensures Leads(Funded(), [PrepareSign(PrepareFor(ALICE, 10))], AlicePrepared())
  {
    assert Next(Funded(), PrepareSign(PrepareFor(ALICE, 10))) == AlicePrepared();
  }

  lemma SweepThenBob() returns (w: World)
    ensures Leads(AlicePrepared(), [SweepPresigns({0}, {}), PrepareSign(PrepareFor(BOB, 20))], w)
    ensures Shared(w, 10, 20, 0)
  {
    var es := [SweepPresigns({0}, {}), PrepareSign(PrepareFor(BOB, 20))];
    var w6 := AlicePrepared();
    var w7 := Next(w6, es[0]);
    EarlySweepShares(w6, 10, 0, {0}, PrepareFor(BOB, 20));
    w := Next(w7, es[1]);
    assert es[1..][1..] == [];
  }

  /** Alice prepares, the sweep takes her presign back before her request expires, Bob prepares with it. */
  function EarlySweep(): seq<Event> {
    [Mint(7, STOCK), Track(0, 7), Promote(0)]
    + ([Bill(DepositTx(Deposited5(1, "d1"))), Bill(DepositTx(Deposited5(2, "d2")))]
    + ([PrepareSign(PrepareFor(ALICE, 10))]
    + [SweepPresigns({0}, {}), PrepareSign(PrepareFor(BOB, 20))]))
  }

  /** From the empty start, were sweeps not timely, two prepared requests come to link one presign. */
  lemma EarlySweepHappens()
    ensures exists w :: Leads(Start(1), EarlySweep(), w) && Shared(w, 10, 20, 0)
  {
    StockArrives();
    UsersFund();
    AlicePrepares();
    var w := SweepThenBob();
    var last := [SweepPresigns({0}, {}), PrepareSign(PrepareFor(BOB, 20))];
    var alice := [PrepareSign(PrepareFor(ALICE, 10))];
    var fund := [Bill(DepositTx(Deposited5(1, "d1"))), Bill(DepositTx(Deposited5(2, "d2")))];
    LeadsOn(Funded(), alice, AlicePrepared(), last, w);
    LeadsOn(Stocked(Ready, None), fund, Funded(), alice + last, w);
    LeadsOn(Start(1), [Mint(7, STOCK), Track(0, 7), Promote(0)], Stocked(Ready, None), fund + (alice + last), w);
  }

  // ---------------------------------------------------------------------------
  // Presigns that leave the stock with a live cap
  // ---------------------------------------------------------------------------

  /** Reconciliation would put this presign back. */
  ghost predicate CanReturn(w: World, p: PresignId) {
    exists r :: Recoverable(w, r) && w.requests.rows[r].presign == Some(p)
  }

  /** Every presign out of stock has a dead cap, or reconciliation would put it back. */
  ghost predicate NothingLost(w: World) {
    forall p :: p in w.pool && w.chain.Alive(w.pool[p].cap) && !InStock(w.pool[p]) ==> CanReturn(w, p)
  }

  /** A response that the executor returns carries the transaction's status. */
  predicate Reported(e: Event) {
    e.Run? && TxExecutor.Execute(e.seen).Done? ==> e.seen.post.block.value.status.Some?
  }

  /** How one event can move a presign that exists before it. */
  ghost predicate Moves(w: World, w': World, p: PresignId) {
    p in w.pool && p in w'.pool &&
    (|| w'.pool[p].status == w.pool[p].status
     || InStock(w'.pool[p])
     || !w'.chain.Alive(w'.pool[p].cap)
     || w.pool[p].status == ConsumedPending
     || CanReturn(w', p))
  }

  lemma FailedRunMoves(w: World, r: RequestId, o: TxExecutor.Observation, fate: TxExecutor.Fate, signId: bool)
    requires Possible(w, Run(r, o, fate, signId)) && Reported(Run(r, o, fate, signId))
    requires !TxExecutor.Execute(o).Done? || !signId
    requires r in w.requests.rows && w.requests.rows[r].presign == Some(w.jobs[r].presign)
    ensures forall p :: p in w.pool ==> Moves(w, FinishExecute(w, r, o, fate, signId), p)
  {
    var w', p := FinishExecute(w, r, o, fate, signId), w.jobs[r].presign;
    FailedRunShape(w, r, o, fate, signId);
    if !TxExecutor.Execute(o).Done? && !TxExecutor.Rollbackable(TxExecutor.Execute(o)) && w'.chain.Alive(w'.pool[p].cap) {
      assert Recoverable(w', r);
      assert CanReturn(w', p);
    }
    assert Moves(w, w', p);
  }

  lemma RunMoves(w: World, r: RequestId, o: TxExecutor.Observation, fate: TxExecutor.Fate, signId: bool, p: PresignId)
    requires CoreOf(w) && Possible(w, Run(r, o, fate, signId)) && Reported(Run(r, o, fate, signId)) && p in w.pool
    ensures Moves(w, FinishExecute(w, r, o, fate, signId), p)
  {
    if !TxExecutor.Execute(o).Done? || !signId {
      JobFacts(w.pool, w.requests, w.chain, w.jobs, r);
      FailedRunMoves(w, r, o, fate, signId);
    }
  }

  lemma PrepareMoves(w: World, a: PrepareArgs, p: PresignId)
    requires p in w.pool
    ensures Moves(w, Prepare(w, a).0, p)
  {
  }

  lemma StepMoves(w: World, e: Event, p: PresignId)
    requires CoreOf(w) && Possible(w, e) && Reported(e) && p in w.pool
    ensures Moves(w, Next(w, e), p)
  {
    match e
    case PrepareSign(a) => PrepareMoves(w, a, p);
    case Begin(r, dwallet) => BeginMoves(w, r, dwallet, p);
    case Run(r, o, fate, signId) => RunMoves(w, r, o, fate, signId, p);
    case Poll(r, completed) => PollMoves(w, r, completed, p);
    case Expire(r) => ExpireMoves(w, r, p);
    case SweepPresigns(rescued, parked) => SweepMoves(w, rescued, parked, p);
    case ReconcileOne(r) => ReconcileMoves(w, r, p);
    case Promote(q) => PromoteMoves(w, q, p);
    case _ => SamePoolMoves(w, e, p);
  }

  lemma BeginMoves(w: World, r: RequestId, dwallet: DwalletRow, p: PresignId)
    requires p in w.pool
    ensures Moves(w, StartJob(w, r, dwallet), p)
  {
  }

  lemma SweepMoves(w: World, rescued: set<PresignId>, parked: set<PresignId>, p: PresignId)
    requires Possible(w, SweepPresigns(rescued, parked)) && p in w.pool
    ensures Moves(w, w.(pool := Sweep(w.pool, rescued, parked)), p)
  {
  }

  lemma ReconcileMoves(w: World, r: RequestId, p: PresignId)
    requires p in w.pool
    ensures Moves(w, Reconcile(w, r), p)
  {
  }

  lemma PromoteMoves(w: World, q: PresignId, p: PresignId)
    requires p in w.pool
    ensures Moves(w, w.(pool := SetStatus(w.pool, q, Ready)), p)
  {
  }

  lemma SamePoolMoves(w: World, e: Event, p: PresignId)
    requires Possible(w, e) && p in w.pool
    requires e.Mint? || e.Track? || e.SubmitSign? || e.Crash? || e.Settle? || e.Bill?
    ensures Moves(w, Next(w, e), p)
  {
  }

  lemma ExpireMoves(w: World, r: RequestId, p: PresignId)
    requires p in w.pool
    ensures Moves(w, ExpirePrepared(w, r), p)
  {
  }

  lemma PollMoves(w: World, r: RequestId, completed: bool, p: PresignId)
    requires CoreOf(w) && Possible(w, Poll(r, completed)) && p in w.pool
    ensures Moves(w, FinishPolling(w, r, completed), p)
  {
    JobFacts(w.pool, w.requests, w.chain, w.jobs, r);
  }

  lemma StepAlive(w: World, e: Event, c: CapId)
    requires Possible(w, e) && c in w.chain.minted && Next(w, e).chain.Alive(c)
    ensures w.chain.Alive(c)
  {
    match e
    case Run(r, o, fate, signId) => RunChain(w, r, o, fate, signId);
    case PrepareSign(a) => PrepareChain(w, a);
    case _ =>
  }

  lemma PrepareChain(w: World, a: PrepareArgs)
    ensures Prepare(w, a).0.chain == w.chain
  {
  }

  lemma RunChain(w: World, r: RequestId, o: TxExecutor.Observation, fate: TxExecutor.Fate, signId: bool)
    requires Possible(w, Run(r, o, fate, signId))
    ensures FinishExecute(w, r, o, fate, signId).chain == ChainAfter(w.chain, r, w.pool[w.jobs[r].presign].cap, fate)
  {
    if !TxExecutor.Execute(o).Done? || !signId { FailedRunShape(w, r, o, fate, signId); }
  }

  lemma StepNew(w: World, e: Event)
    requires Possible(w, e)
    ensures forall p :: p in Next(w, e).pool && p !in w.pool ==> InStock(Next(w, e).pool[p])
  {
    match e
    case Run(r, o, fate, signId) => if !TxExecutor.Execute(o).Done? || !signId { FailedRunShape(w, r, o, fate, signId); }
    case _ =>
  }

  lemma StepLosesNothing(w: World, e: Event)
    requires CoreOf(w) && NothingLost(w) && Possible(w, e) && Reported(e)
    ensures NothingLost(Next(w, e))
  {
    var w' := Next(w, e);
    StepCapsPersist(w, e);
    StepNew(w, e);
    forall p | p in w'.pool && w'.chain.Alive(w'.pool[p].cap) && !InStock(w'.pool[p]) ensures CanReturn(w', p) {
      assert w'.pool[p].cap == w.pool[p].cap;
      StepMoves(w, e, p);
      StepAlive(w, e, w.pool[p].cap);
      if !InStock(w.pool[p]) {
        StillReturns(w, e, p);
      }
    }
  }

  /** A presign that can return stays so until it does, or until its cap dies. */
  lemma StillReturns(w: World, e: Event, p: PresignId)
    requires JobsOk(w.jobs, w.requests.rows) && Possible(w, e) && p in w.pool && CanReturn(w, p)
    requires Moves(w, Next(w, e), p) && CapsPersist(w, Next(w, e)) && p in Next(w, e).pool
    requires Next(w, e).chain.Alive(Next(w, e).pool[p].cap) && !InStock(Next(w, e).pool[p])
    ensures CanReturn(Next(w, e), p)
  {
    var r :| Recoverable(w, r) && w.requests.rows[r].presign == Some(p);
    StepPersists(w, e, r);
    if Next(w, e).pool[p].status == w.pool[p].status {
      assert Recoverable(Next(w, e), r);
    }
  }

  /**
   * If every returned response carries its status, no presign with a live cap is ever lost: it is
   * in stock, or reconciliation would put it back. (A response without one may report an aborted
   * transaction as done, and its presign stays used though its cap is alive.)
   */
  lemma {:induction false} NoPresignIsLost(ws: seq<World>, es: seq<Event>, i: nat)
    requires IsRun(ws, es) && i < |ws|
    requires forall j :: 0 <= j < |es| ==> Reported(es[j])
    ensures NothingLost(ws[i])
  {
    if i > 0 {
      NoPresignIsLost(ws, es, i - 1);
      InvThroughout(ws, es, i - 1);
      StepLosesNothing(ws[i - 1], es[i - 1]);
    }
  }

  /** A failed request with an unknown outcome that links the presign: what reconciliation goes by. */
  ghost predicate UnknownLinks(rows: Rows, p: PresignId) {
    exists s :: s in rows && rows[s].status == Unsuccessful && rows[s].error == Some(SubmitUnknown) && rows[s].presign == Some(p)
  }

  /**
   * Without a status the executor may return an aborted transaction: the presign stays used with
   * its cap alive, and it can come back exactly if some earlier request with an unknown outcome
   * links it too; its own request gives reconciliation nothing to find.
   */
  lemma UnreportedAbortReturnsExactly(w: World, r: RequestId, o: TxExecutor.Observation)
    requires CoreOf(w) && r in w.jobs && w.jobs[r].Executing? && w.jobs[r].presign in w.pool
    requires TxExecutor.Execute(o).Done? && o.post.block.value.status.None?
    ensures Possible(w, Run(r, o, TxExecutor.Aborted, false))
    ensures var w', p := Next(w, Run(r, o, TxExecutor.Aborted, false)), w.jobs[r].presign;
            && p in w'.pool && w'.chain.Alive(w'.pool[p].cap) && w'.pool[p].status == Used && !Recoverable(w', r)
            && (CanReturn(w', p) <==> UnknownLinks(w.requests.rows, p))
  {
    JobFacts(w.pool, w.requests, w.chain, w.jobs, r);
    FailedRunShape(w, r, o, TxExecutor.Aborted, false);
    var w', p := Next(w, Run(r, o, TxExecutor.Aborted, false)), w.jobs[r].presign;
    var rows, rows' := w.requests.rows, w'.requests.rows;
    if UnknownLinks(rows, p) {
      var s :| s in rows && rows[s].status == Unsuccessful && rows[s].error == Some(SubmitUnknown) && rows[s].presign == Some(p);
      assert rows'[s] == rows[s];
      assert Recoverable(w', s);
    }
    if CanReturn(w', p) {
      var s :| Recoverable(w', s) && rows'[s].presign == Some(p);
      assert rows'[s] == rows[s];
    }
  }

  // ---------------------------------------------------------------------------
  // Writes that do not look again
  // ---------------------------------------------------------------------------

  /** What the sweep of prepared rows does to a row it selected earlier, linked as it was then. */
  function ExpireSelected(w: World, r: RequestId, link: Option<PresignId>): World {
    MarkFailed(if link.Some? then w.(pool := RollbackToReady(w.pool, link.value)) else w, r, PrepareExpired)
  }

  /** No prepared or queued request but r links the presign. */
  predicate NoOtherClaim(rows: Rows, p: PresignId, r: RequestId) {
    forall s :: s in rows && s != r && rows[s].Active() ==> rows[s].presign != Some(p)
  }

  /** No job runs for the row, its transaction is settled, and its presign is free for the pool. */
  ghost predicate ExpirySafe(w: World, r: RequestId, link: Option<PresignId>) {
    && r !in w.jobs
    && match link
       case None => r !in w.chain.inFlight
       case Some(p) => p in w.pool && Untouched(w.chain, w.pool[p].cap) && NoOtherClaim(w.requests.rows, p, r)
  }

  /**
   * Expiring a row that has moved on since it was selected, to whatever status, keeps the
   * invariant exactly when no job runs for it and, if it was selected with a presign, that
   * presign's cap is untouched and no other live request has claimed it; if it was selected
   * without one, when its own transaction is settled.
   */
  lemma StaleExpiryKeepsExactly(w: World, r: RequestId, link: Option<PresignId>)
    requires CoreOf(w) && r in w.requests.rows
    requires link.Some? ==> w.requests.rows[r].presign == link
    ensures CoreOf(ExpireSelected(w, r, link)) <==> ExpirySafe(w, r, link)
  {
    if ExpirySafe(w, r, link) {
      SafeExpiryKeeps(w, r, link);
    } else {
      UnsafeExpiryBreaks(w, r, link);
    }
  }

  /** A request with an unsettled transaction has a presign whose cap that transaction may burn. */
  lemma OutstandingTouches(rows: Rows, pool: Pool, chain: Chain, r: RequestId)
    requires FlightOk(rows, pool, chain)
    ensures r in chain.inFlight ==>
              && r in rows && rows[r].presign.Some? && rows[r].presign.value in pool
              && !Untouched(chain, pool[rows[r].presign.value].cap)
  {
  }

  /** A row in any status fails while no job runs for it and its own transaction is settled. */
  lemma FailedRowKeeps(w: World, r: RequestId, code: ErrorCode)
    requires CoreOf(w) && r in w.requests.rows && r !in w.jobs && r !in w.chain.inFlight
    ensures CoreOf(MarkFailed(w, r, code))
  {
    RowSetKeeps(w.pool, w.requests, w.chain, w.jobs, r, w.requests.rows[r].(status := Unsuccessful, error := Some(code)));
  }

  lemma FreedPresignKeeps(w: World, p: PresignId)
    requires CoreOf(w) && p in w.pool && Unclaimed(w.requests.rows, p) && Untouched(w.chain, w.pool[p].cap)
    ensures CoreOf(w.(pool := RollbackToReady(w.pool, p)))
  {
    UnclaimedChange(w.pool, w.requests.rows, w.chain, p, w.pool[p].(status := Ready, owner := None));
    SameCapsKeep(w.requests.rows, w.pool, RollbackToReady(w.pool, p), w.chain);
  }

  lemma SafeExpiryKeeps(w: World, r: RequestId, link: Option<PresignId>)
    requires CoreOf(w) && r in w.requests.rows && ExpirySafe(w, r, link)
    requires link.Some? ==> w.requests.rows[r].presign == link
    ensures CoreOf(ExpireSelected(w, r, link))
  {
    if link.None? {
      FailedRowKeeps(w, r, PrepareExpired);
    } else {
      LinkedExpiryKeeps(w, r, link.value);
    }
  }

  lemma LinkedExpiryKeeps(w: World, r: RequestId, p: PresignId)
    requires CoreOf(w) && r in w.requests.rows && w.requests.rows[r].presign == Some(p) && ExpirySafe(w, r, Some(p))
    ensures CoreOf(ExpireSelected(w, r, Some(p)))
  {
    OutstandingTouches(w.requests.rows, w.pool, w.chain, r);
    FailedRowKeeps(w, r, PrepareExpired);
    FailedThenFreed(w, r, p);
    FreedPresignKeeps(MarkFailed(w, r, PrepareExpired), p);
  }

  /** Failing the row and freeing its presign commute. */
  lemma FailedThenFreed(w: World, r: RequestId, p: PresignId)
    requires r in w.requests.rows && NoOtherClaim(w.requests.rows, p, r)
    ensures var failed := MarkFailed(w, r, PrepareExpired);
            && failed.pool == w.pool && failed.chain == w.chain
            && Unclaimed(failed.requests.rows, p)
            && ExpireSelected(w, r, Some(p)) == failed.(pool := RollbackToReady(failed.pool, p))
  {
  }

  lemma UnsafeExpiryBreaks(w: World, r: RequestId, link: Option<PresignId>)
    requires CoreOf(w) && r in w.requests.rows && !ExpirySafe(w, r, link)
    requires link.Some? ==> w.requests.rows[r].presign == link
    ensures !CoreOf(ExpireSelected(w, r, link))
  {
    var w' := ExpireSelected(w, r, link);
    if r in w.jobs {
      assert !JobsOk(w'.jobs, w'.requests.rows);
    } else if link.None? {
      assert !FlightOk(w'.requests.rows, w'.pool, w'.chain);
    } else {
      var p := link.value;
      assert w'.pool[p].status == Ready && w'.pool[p].cap == w.pool[p].cap;
      if Untouched(w.chain, w.pool[p].cap) {
        var s :| s in w.requests.rows && s != r && w.requests.rows[s].Active() && w.requests.rows[s].presign == Some(p);
        assert w'.requests.rows[s] == w.requests.rows[s];
        assert !Owned(w'.pool, w'.requests.rows);
      } else {
        assert !PoolOk(w'.pool, w'.chain);
      }
    }
  }

  /** The expiry leaves a settled row as it is exactly when it had expired before. */
  lemma StaleExpirySettlesExactly(w: World, r: RequestId, link: Option<PresignId>)
    requires r in w.requests.rows
    ensures Persists(w, ExpireSelected(w, r, link), r) <==>
              && w.requests.rows[r].status != Completed
              && (w.requests.rows[r].status == Unsuccessful ==> w.requests.rows[r].error == Some(PrepareExpired))
  {
    var row := w.requests.rows[r];
    assert ExpireSelected(w, r, link).requests.rows[r] == row.(status := Unsuccessful, error := Some(PrepareExpired));
  }

  /** What a submit writes and enqueues once it has read a row as prepared: the update names only the id. */
  function QueueRead(w: World, r: RequestId): World
    requires r in w.requests.rows
  {
    w.(requests := SetRow(w.requests, r, w.requests.rows[r].(status := Queued, signed := true)), sent := w.sent + [r])
  }

  /**
   * A submit's late write keeps the money right exactly when the row has not failed meanwhile:
   * otherwise a request already refunded goes to the worker, and is signed for nothing.
   */
  lemma LateSubmitKeepsMoneyExactly(w: World, r: RequestId)
    requires MoneyOf(w) && r in w.requests.rows
    ensures MoneyOf(QueueRead(w, r)) <==> w.requests.rows[r].status != Unsuccessful
  {
    var row := w.requests.rows[r].(status := Queued, signed := true);
    assert RowBilled(w.book.entries, r, w.requests.rows[r], w.price);
    if w.requests.rows[r].status != Unsuccessful {
      SameMoney(w.book, w.requests.rows, r, row, w.price);
    } else {
      assert !RowBilled(w.book.entries, r, row, w.price);
      assert QueueRead(w, r).requests.rows[r] == row;
    }
  }

  /** The row's presign is allocated to it. */
  predicate OwnsPresign(w: World, r: RequestId)
    requires r in w.requests.rows
  {
    var link := w.requests.rows[r].presign;
    link.Some? && link.value in w.pool && w.pool[link.value].status == Allocated && w.pool[link.value].owner == Some(r)
  }

  /** It keeps pool, rows, chain and jobs right exactly when the row's presign is still allocated to it. */
  lemma LateSubmitKeepsCoreExactly(w: World, r: RequestId)
    requires CoreOf(w) && r in w.requests.rows
    ensures CoreOf(QueueRead(w, r)) <==> OwnsPresign(w, r)
  {
    if OwnsPresign(w, r) {
      QueuedRowKeeps(w.pool, w.requests, w.chain, w.jobs, r);
    } else {
      var w' := QueueRead(w, r);
      assert w'.requests.rows[r].status == Queued;
      assert !(LinksOk(w'.requests.rows, w'.pool) && Owned(w'.pool, w'.requests.rows));
    }
  }

  lemma AllocatedJobExecutes(rows: Rows, pool: Pool, chain: Chain, jobs: map<RequestId, Job>, r: RequestId)
    requires JobsOk(jobs, rows) && SpentOk(rows, pool, chain)
    requires r in rows && rows[r].presign.Some? && rows[r].presign.value in pool
    requires Untouched(chain, pool[rows[r].presign.value].cap)
    ensures r in jobs ==> jobs[r].Executing?
  {
  }

  lemma QueuedRows(rows: Rows, pool: Pool, r: RequestId, row: Request)
    requires LinksOk(rows, pool) && Owned(pool, rows)
    requires r in rows && row == rows[r].(status := Queued, signed := true)
    requires row.presign.Some? && row.presign.value in pool
    requires pool[row.presign.value].status == Allocated && pool[row.presign.value].owner == Some(r)
    ensures LinksOk(rows[r := row], pool) && Owned(pool, rows[r := row])
  {
  }

  lemma QueuedRest(rows: Rows, pool: Pool, chain: Chain, jobs: map<RequestId, Job>, r: RequestId, row: Request)
    requires JobsOk(jobs, rows) && SpentOk(rows, pool, chain) && FlightOk(rows, pool, chain)
    requires r in rows && row == rows[r].(status := Queued, signed := true)
    requires r !in chain.inFlight && (r in jobs ==> jobs[r].Executing?)
    ensures JobsOk(jobs, rows[r := row]) && SpentOk(rows[r := row], pool, chain) && FlightOk(rows[r := row], pool, chain)
  {
  }

  lemma QueuedRowKeeps(pool: Pool, t: Requests, chain: Chain, jobs: map<RequestId, Job>, r: RequestId)
    requires Core(pool, t, chain, jobs) && r in t.rows
    requires t.rows[r].presign.Some? && t.rows[r].presign.value in pool
    requires pool[t.rows[r].presign.value].status == Allocated && pool[t.rows[r].presign.value].owner == Some(r)
    ensures Core(pool, SetRow(t, r, t.rows[r].(status := Queued, signed := true)), chain, jobs)
  {
    var row := t.rows[r].(status := Queued, signed := true);
    assert Untouched(chain, pool[row.presign.value].cap);
    OutstandingTouches(t.rows, pool, chain, r);
    AllocatedJobExecutes(t.rows, pool, chain, jobs, r);
    QueuedRows(t.rows, pool, r, row);
    QueuedRest(t.rows, pool, chain, jobs, r, row);
    IndexAfter(t, r, t.rows[r].(status := Queued, signed := true));
  }

  /**
   * Together: the late write keeps the whole invariant exactly when the row is still prepared or
   * queued with a presign. A failed row loses the money half, a submitted or completed one the rest.
   */
  lemma LateSubmitKeepsExactly(w: World, r: RequestId)
    requires Inv(w) && r in w.requests.rows
    ensures Inv(QueueRead(w, r)) <==> w.requests.rows[r].Active() && w.requests.rows[r].presign.Some?
  {
    LateSubmitKeepsMoneyExactly(w, r);
    if w.requests.rows[r].status != Unsuccessful { LateSubmitCoreByStatus(w, r); }
  }

  /** A row that has not failed keeps pool, rows, chain and jobs right exactly while it is live and linked: a submitted or completed one never. */
  lemma LateSubmitCoreByStatus(w: World, r: RequestId)
    requires CoreOf(w) && r in w.requests.rows && w.requests.rows[r].status != Unsuccessful
    ensures CoreOf(QueueRead(w, r)) <==> w.requests.rows[r].Active() && w.requests.rows[r].presign.Some?
  {
    OwnsByStatus(w, r);
    LateSubmitKeepsCoreExactly(w, r);
  }

  lemma OwnsByStatus(w: World, r: RequestId)
    requires CoreOf(w) && r in w.requests.rows
    ensures w.requests.rows[r].Active() ==> (OwnsPresign(w, r) <==> w.requests.rows[r].presign.Some?)
    ensures w.requests.rows[r].Spent() ==> !OwnsPresign(w, r)
  {
    OwnerByStatus(w.pool, w.requests, w.chain, w.jobs, r);
  }

  /** A live request owns the presign it links; one that reached the chain does not. */
  lemma OwnerByStatus(pool: Pool, t: Requests, chain: Chain, jobs: map<RequestId, Job>, r: RequestId)
    requires Core(pool, t, chain, jobs) && r in t.rows
    ensures var link := t.rows[r].presign;
            && (t.rows[r].Active() && link.Some? ==>
                  link.value in pool && pool[link.value].status == Allocated && pool[link.value].owner == Some(r))
            && (t.rows[r].Spent() && link.Some? ==> link.value in pool && !Untouched(chain, pool[link.value].cap)
                                                    && pool[link.value].status != Allocated)
  {
  }

  /** And it enqueues the job a second time exactly when the first submit already has. */
  lemma LateSubmitEnqueuesOnceExactly(w: World, r: RequestId)
    requires SentOk(w) && r in w.requests.rows
    ensures SentOk(QueueRead(w, r)) <==> r !in w.sent
  {
    var w' := QueueRead(w, r);
    assert w'.sent[|w.sent|] == r;
    if r in w.sent {
      var i :| 0 <= i < |w.sent| && w.sent[i] == r;
      assert w'.sent[i] == r;
    } else {
      forall i | 0 <= i < |w'.sent| ensures w'.sent[i] in w'.requests.rows && w'.requests.rows[w'.sent[i]].status != SignStatus.Prepared {
        if i < |w.sent| { assert w'.sent[i] == w.sent[i]; }
      }
    }
  }

  /** The revived job of a completed request aborts on the burned cap: the cap goes back to the pool, and the delivered signature is refunded. */
  lemma RevivedCompletionGoesWrong(w: World, r: RequestId, o: TxExecutor.Observation)
    requires Inv(w) && r in w.requests.rows && w.requests.rows[r].status == Completed
    requires TxExecutor.Execute(o) == TxExecutor.Failed(TxExecutor.Reverted) && TxExecutor.Consistent(o, TxExecutor.Aborted)
    ensures Possible(QueueRead(w, r), Begin(r, Present))
    ensures var w1 := Next(QueueRead(w, r), Begin(r, Present));
            && Possible(w1, Run(r, o, TxExecutor.Aborted, false))
            && var w2 := Next(w1, Run(r, o, TxExecutor.Aborted, false));
               && w.requests.rows[r].presign.Some? && w.requests.rows[r].presign.value in w2.pool
               && w2.pool[w.requests.rows[r].presign.value].status == Ready
               && w2.pool[w.requests.rows[r].presign.value].cap in w2.chain.burnedBy
               && w2.book == RefundOp(w.book, SignArgs(w.requests.rows[r].idem, r, w.price)).0
               && Find(w2.book.entries, RefundKey(w.requests.rows[r].idem, r))
                  == Some(Entry(w.requests.rows[r].idem.user, RefundKey(w.requests.rows[r].idem, r), w.price))
               && r in w2.requests.rows && w2.requests.rows[r].status == Unsuccessful
  {
    RevivedJobStarts(w, r);
    SpentRowRefunds(w, r);
    FailedRunShape(Next(QueueRead(w, r), Begin(r, Present)), r, o, TxExecutor.Aborted, false);
  }

  /** The ledger does not stop a refund of a request that was delivered. */
  lemma SpentRowRefunds(w: World, r: RequestId)
    requires MoneyOf(w) && r in w.requests.rows && w.requests.rows[r].status == Completed
    ensures var row := w.requests.rows[r];
            Find(RefundOp(w.book, SignArgs(row.idem, r, w.price)).0.entries, RefundKey(row.idem, r))
            == Some(Entry(row.idem.user, RefundKey(row.idem, r), w.price))
  {
    var row := w.requests.rows[r];
    var c := SignArgs(row.idem, r, w.price);
    assert RowBilled(w.book.entries, r, row, w.price);
    RefundExactly(w.book, c);
    FindAfter(w.book, c, c.Key(Refund));
  }

  lemma RevivedJobStarts(w: World, r: RequestId)
    requires CoreOf(w) && r in w.requests.rows && w.requests.rows[r].status == Completed
    ensures w.requests.rows[r].presign.Some? && w.requests.rows[r].presign.value in w.pool
    ensures w.pool[w.requests.rows[r].presign.value].cap in w.chain.burnedBy
    ensures Possible(QueueRead(w, r), Begin(r, Present))
    ensures Next(QueueRead(w, r), Begin(r, Present))
            == QueueRead(w, r).(jobs := w.jobs[r := Executing(w.requests.rows[r].presign.value)])
  {
    SpentFacts(w, r);
    assert QueueRead(w, r).sent[|w.sent|] == r;
  }

  /** Setting a presign ready again, without looking, keeps the invariant exactly when its row has no owner, so that no live request links it, and its cap is untouched. */
  lemma LatePromotionKeepsExactly(w: World, p: PresignId)
    requires CoreOf(w) && p in w.pool
    ensures CoreOf(w.(pool := SetStatus(w.pool, p, Ready))) <==> w.pool[p].owner.None? && Untouched(w.chain, w.pool[p].cap)
    ensures w.pool[p].owner.None? ==> Unclaimed(w.requests.rows, p)
  {
    var w', x := w.(pool := SetStatus(w.pool, p, Ready)), w.pool[p].(status := Ready);
    assert w'.pool == w.pool[p := x];
    if Untouched(w.chain, x.cap) && x.owner.None? {
      assert Unclaimed(w.requests.rows, p);
      UnclaimedChange(w.pool, w.requests.rows, w.chain, p, x);
      SameCapsKeep(w.requests.rows, w.pool, w'.pool, w.chain);
    } else {
      assert w'.pool[p] == x;
      assert !PoolOk(w'.pool, w'.chain);
    }
  }

  /** Reconciling keeps the invariant exactly when, for a presign it would put back, no transaction is unsettled. */
  lemma ReconcileKeepsExactly(w: World, r: RequestId)
    requires CoreOf(w)
    ensures CoreOf(Reconcile(w, r)) <==> (Recoverable(w, r) ==> Settled(w, r))
  {
    if !Recoverable(w, r) || Settled(w, r) {
      if Recoverable(w, r) { ReconcileKeeps(w, r); }
    } else {
      var p := w.requests.rows[r].presign.value;
      var w' := Reconcile(w, r);
      assert w'.pool[p].status == Ready && w'.pool[p].cap == w.pool[p].cap;
      assert !PoolOk(w'.pool, w'.chain);
    }
  }

  /** Reconciled while its transaction is still out, a presign is ready with a cap that the transaction then burns. */
  lemma EarlyReconcileReadiesABurnedCap(w: World, r: RequestId)
    requires CoreOf(w) && Recoverable(w, r) && r in w.chain.inFlight
    ensures Possible(Reconcile(w, r), Settle(r, true))
    ensures var w', p := Next(Reconcile(w, r), Settle(r, true)), w.requests.rows[r].presign.value;
            p in w'.pool && w'.pool[p].status == Ready && w'.pool[p].cap in w'.chain.burnedBy
  {
    var p := w.requests.rows[r].presign.value;
    assert w.chain.inFlight[r] == w.pool[p].cap;
  }
}
