/** Runs of the sign pipeline: every event keeps the invariant, and what follows for whole runs. */
module SignRuns {
  import opened Common
  import opened Ledger
  import opened SignPipeline
  import opened SignInvariant
  import TxExecutor

  // ---------------------------------------------------------------------------
  // Prepare keeps the tables
  // ---------------------------------------------------------------------------

  lemma InsertedKeeps(pool: Pool, t: Requests, chain: Chain, jobs: map<RequestId, Job>, r: RequestId, row: Request)
    requires Core(pool, t, chain, jobs)
    requires r !in t.rows && row.idem !in t.index && row.presign.None? && row.status == SignStatus.Prepared
    ensures Core(pool, InsertRow(t, r, row), chain, jobs)
  {
    InsertedIndexOk(t, r, row);
    InsertedRowsOk(t.rows, pool, chain, jobs, r, row);
  }

  lemma InsertedIndexOk(t: Requests, r: RequestId, row: Request)
    requires IndexOk(t) && r !in t.rows && row.idem !in t.index
    ensures IndexOk(InsertRow(t, r, row))
  {
  }

  lemma InsertedRowsOk(rows: Rows, pool: Pool, chain: Chain, jobs: map<RequestId, Job>, r: RequestId, row: Request)
    requires LinksOk(rows, pool) && Owned(pool, rows) && JobsOk(jobs, rows) && SpentOk(rows, pool, chain) && FlightOk(rows, pool, chain)
    requires r !in rows && row.presign.None? && row.status == SignStatus.Prepared
    ensures LinksOk(rows[r := row], pool) && Owned(pool, rows[r := row]) && JobsOk(jobs, rows[r := row])
    ensures SpentOk(rows[r := row], pool, chain) && FlightOk(rows[r := row], pool, chain)
  {
  }

  /** Claiming a ready presign and linking it: nobody else was linked to it, so nobody shares it. */
  lemma ClaimKeeps(pool: Pool, t: Requests, chain: Chain, jobs: map<RequestId, Job>, r: RequestId, p: PresignId)
    requires Core(pool, t, chain, jobs)
    requires r in t.rows && t.rows[r].status == SignStatus.Prepared && t.rows[r].presign.None?
    requires p in pool && pool[p].status == Ready
    ensures Core(Claim(pool, p, r), SetRow(t, r, t.rows[r].(presign := Some(p))), chain, jobs)
    ensures Untouched(chain, pool[p].cap)
  {
    var row := t.rows[r].(presign := Some(p));
    var x := pool[p].(status := Allocated, owner := Some(r));
    assert Untouched(chain, pool[p].cap);
    PoolAfter(pool, chain, chain, r, p, x);
    IndexAfter(t, r, row);
    SameCapsKeep(t.rows, pool, pool[p := x], chain);
    ClaimedRows(t.rows, pool, chain, jobs, r, p, x, row);
  }

  lemma ClaimedRows(rows: Rows, pool: Pool, chain: Chain, jobs: map<RequestId, Job>, r: RequestId, p: PresignId, x: Presign, row: Request)
    requires LinksOk(rows, pool[p := x]) && Owned(pool, rows) && JobsOk(jobs, rows)
    requires SpentOk(rows, pool[p := x], chain) && FlightOk(rows, pool[p := x], chain)
    requires r in rows && rows[r].status == SignStatus.Prepared && rows[r].presign.None?
    requires p in pool && pool[p].status == Ready && x.status == Allocated && x.owner == Some(r)
    requires row == rows[r].(presign := Some(p))
    ensures LinksOk(rows[r := row], pool[p := x]) && Owned(pool[p := x], rows[r := row]) && JobsOk(jobs, rows[r := row])
    ensures SpentOk(rows[r := row], pool[p := x], chain) && FlightOk(rows[r := row], pool[p := x], chain)
  {
  }

  /** Quarantining a dead cap takes nothing from anyone: its presign was out of stock already. */
  lemma QuarantineKeeps(w: World, cap: CapId)
    requires CoreOf(w) && !w.chain.Alive(cap)
    ensures CoreOf(w.(pool := Quarantine(w.pool, cap)))
  {
    QuarantinedPool(w.pool, w.requests.rows, w.chain, cap);
    SameCapsKeep(w.requests.rows, w.pool, Quarantine(w.pool, cap), w.chain);
  }

  lemma QuarantinedPool(pool: Pool, rows: Rows, chain: Chain, cap: CapId)
    requires PoolOk(pool, chain) && Owned(pool, rows) && !chain.Alive(cap)
    ensures PoolOk(Quarantine(pool, cap), chain) && Owned(Quarantine(pool, cap), rows)
  {
    var pool' := Quarantine(pool, cap);
    assert PoolOk(pool', chain);
    forall r | r in rows && rows[r].Active() && rows[r].presign.Some? && rows[r].presign.value in pool'
      ensures pool'[rows[r].presign.value] == pool[rows[r].presign.value]
    {
      assert Untouched(chain, pool[rows[r].presign.value].cap);
    }
  }

  lemma InsertThenDelete(t: Requests, r: RequestId, row: Request)
    requires r !in t.rows && row.idem !in t.index
    ensures DeleteRow(InsertRow(t, r, row), r) == t
  {
    assert t.rows[r := row] - {r} == t.rows;
    assert t.index[row.idem := r] - {row.idem} == t.index;
  }

  /** The world right after a new row is inserted. */
  function Inserted(w: World, a: PrepareArgs, curve: nat): World {
    w.(book := ChargeOp(w.book, SignArgs(a.idem, a.newId, w.price)).0,
       requests := InsertRow(w.requests, a.newId, FreshRow(a, curve)))
  }

  lemma ReserveKeeps(w: World, a: PrepareArgs, curve: nat)
    requires CoreOf(w) && a.newId !in w.requests.rows && a.idem !in w.requests.index
    ensures CoreOf(Reserve(Inserted(w, a, curve), a).0)
  {
    var w1 := Inserted(w, a, curve);
    InsertedKeeps(w.pool, w.requests, w.chain, w.jobs, a.newId, FreshRow(a, curve));
    InsertThenDelete(w.requests, a.newId, FreshRow(a, curve));
    if a.pick.Some? && a.pick.value in w.pool && w.pool[a.pick.value].status == Ready {
      ClaimKeeps(w1.pool, w1.requests, w1.chain, w1.jobs, a.newId, a.pick.value);
    }
  }

  lemma PrepareNewKeeps(w: World, a: PrepareArgs, curve: nat)
    requires CoreOf(w) && a.newId !in w.requests.rows
    ensures CoreOf(PrepareNew(w, a, curve).0)
  {
    if a.idem !in w.requests.index { ReserveKeeps(w, a, curve); }
  }

  lemma PrepareKeeps(w: World, a: PrepareArgs)
    requires CoreOf(w) && a.newId !in w.requests.rows
    ensures CoreOf(Prepare(w, a).0)
  {
    match Linked(w, a.idem)
    case Some(p) => if !w.chain.Alive(w.pool[p].cap) { QuarantineKeeps(w, w.pool[p].cap); }
    case None => if a.dwallet.Active? { PrepareNewKeeps(w, a, a.dwallet.curve); }
  }

  // ---------------------------------------------------------------------------
  // Every event keeps the money
  // ---------------------------------------------------------------------------

  /** A charge or refund under an id that no row carries leaves every row billed. */
  lemma StrayOpMoney(b: Book, rows: Rows, c: OpArgs, price: int)
    requires Money(b, rows, price) && (c.opType == Sign ==> c.opId !in rows)
    ensures Money(ChargeOp(b, c).0, rows, price)
    ensures Money(RefundOp(b, c).0, rows, price)
  {
    ChargeKeeps(b, c);
    RefundKeeps(b, c);
    forall r, n, k | r in rows
      ensures Find(ChargeOp(b, c).0.entries, OpKey(n, Sign, r, k)) == Find(b.entries, OpKey(n, Sign, r, k))
      ensures Find(RefundOp(b, c).0.entries, OpKey(n, Sign, r, k)) == Find(b.entries, OpKey(n, Sign, r, k))
    {
      FindAfter(b, c, OpKey(n, Sign, r, k));
    }
    OthersStayBilled(b.entries, ChargeOp(b, c).0.entries, rows, price);
    OthersStayBilled(b.entries, RefundOp(b, c).0.entries, rows, price);
  }

  /** A fresh charge bills the row that is inserted under its id. */
  lemma ChargedRowBilled(b: Book, r: RequestId, row: Request, price: int)
    requires forall n, k :: Find(b.entries, OpKey(n, Sign, r, k)).None?
    requires ChargeOp(b, SignArgs(row.idem, r, price)).1.Ok? && row.status != Unsuccessful
    ensures RowBilled(ChargeOp(b, SignArgs(row.idem, r, price)).0.entries, r, row, price)
  {
    var c := SignArgs(row.idem, r, price);
    var entries' := ChargeOp(b, c).0.entries;
    forall n, k ensures Find(entries', OpKey(n, Sign, r, k)) ==
        if OpKey(n, Sign, r, k) == c.Key(Charge) then Some(Entry(c.user, c.Key(Charge), -price)) else None
    {
      FindAfter(b, c, OpKey(n, Sign, r, k));
    }
  }

  lemma AddedRowBilled(entries: seq<Entry>, rows: Rows, r: RequestId, row: Request, price: int)
    requires Billed(entries, rows, price) && RowBilled(entries, r, row, price)
    ensures Billed(entries, rows[r := row], price)
  {
  }

  lemma FreshIdFindsNothing(w: World, r: RequestId)
    requires FreshId(w, r)
    ensures forall n, k :: Find(w.book.entries, OpKey(n, Sign, r, k)).None?
  {
  }

  lemma InsertedMoney(w: World, a: PrepareArgs, curve: nat)
    requires MoneyOf(w) && FreshId(w, a.newId)
    requires ChargeOp(w.book, SignArgs(a.idem, a.newId, w.price)).1.Ok?
    ensures MoneyOf(Inserted(w, a, curve))
    ensures MoneyOf(Inserted(w, a, curve).(requests := w.requests))
  {
    FreshIdFindsNothing(w, a.newId);
    StrayOpMoney(w.book, w.requests.rows, SignArgs(a.idem, a.newId, w.price), w.price);
    ChargedRowBilled(w.book, a.newId, FreshRow(a, curve), w.price);
    AddedRowBilled(Inserted(w, a, curve).book.entries, w.requests.rows, a.newId, FreshRow(a, curve), w.price);
  }

  /** What reserving leaves of book and rows: both as they were, the row withdrawn and refunded, or the row linked. */
  lemma ReserveShape(w: World, a: PrepareArgs)
    requires a.newId in w.requests.rows
    ensures var w' := Reserve(w, a).0;
            && w'.price == w.price
            && (|| (w'.book == w.book && w'.requests == w.requests)
                || (w'.book == Withdraw(w, a).book && w'.requests == Withdraw(w, a).requests)
                || (a.pick.Some? && w'.book == w.book
                    && w'.requests.rows == w.requests.rows[a.newId := w.requests.rows[a.newId].(presign := a.pick)]))
  {
  }

  lemma ReserveMoney(w: World, a: PrepareArgs, curve: nat)
    requires MoneyOf(w) && FreshId(w, a.newId) && a.idem !in w.requests.index
    requires ChargeOp(w.book, SignArgs(a.idem, a.newId, w.price)).1.Ok?
    ensures MoneyOf(Reserve(Inserted(w, a, curve), a).0)
  {
    var w1 := Inserted(w, a, curve);
    InsertedMoney(w, a, curve);
    InsertThenDelete(w.requests, a.newId, FreshRow(a, curve));
    ReserveShape(w1, a);
    StrayOpMoney(w1.book, w.requests.rows, SignArgs(a.idem, a.newId, w.price), w.price);
    SameMoney(w1.book, w1.requests.rows, a.newId, FreshRow(a, curve).(presign := a.pick), w.price);
  }

  lemma PrepareNewMoney(w: World, a: PrepareArgs, curve: nat)
    requires MoneyOf(w) && FreshId(w, a.newId)
    ensures MoneyOf(PrepareNew(w, a, curve).0)
  {
    StrayOpMoney(w.book, w.requests.rows, SignArgs(a.idem, a.newId, w.price), w.price);
    if a.idem !in w.requests.index && ChargeOp(w.book, SignArgs(a.idem, a.newId, w.price)).1.Ok? {
      ReserveMoney(w, a, curve);
    }
  }

  lemma PrepareMoney(w: World, a: PrepareArgs)
    requires MoneyOf(w) && FreshId(w, a.newId)
    ensures MoneyOf(Prepare(w, a).0)
  {
    if Linked(w, a.idem).None? && a.dwallet.Active? {
      PrepareNewMoney(w, a, a.dwallet.curve);
    }
  }

  lemma MarkFailedMoney(w: World, r: RequestId, code: ErrorCode)
    requires MoneyOf(w)
    ensures MoneyOf(MarkFailed(w, r, code))
  {
    if r in w.requests.rows {
      RefundMoney(w.book, w.requests.rows, r, w.requests.rows[r].(status := Unsuccessful, error := Some(code)), w.price);
    }
  }

  lemma BeginMoney(w: World, r: RequestId, dwallet: DwalletRow)
    requires MoneyOf(w)
    ensures MoneyOf(StartJob(w, r, dwallet))
  {
    MarkFailedMoney(w, r, NoPresign);
    MarkFailedMoney(w, r, MissingInputs);
    MarkFailedMoney(w, r, PresignGone);
    MarkFailedMoney(w, r, DwalletGone);
  }

  lemma RunMoney(w: World, r: RequestId, o: TxExecutor.Observation, fate: TxExecutor.Fate, signId: bool)
    requires MoneyOf(w) && JobsOk(w.jobs, w.requests.rows) && Possible(w, Run(r, o, fate, signId))
    ensures MoneyOf(FinishExecute(w, r, o, fate, signId))
  {
    if TxExecutor.Execute(o).Done? && signId {
      SameMoney(w.book, w.requests.rows, r, w.requests.rows[r].(status := Submitted), w.price);
    } else {
      FailedRunShape(w, r, o, fate, signId);
      var p, w' := w.jobs[r].presign, FinishExecute(w, r, o, fate, signId);
      MarkFailedMoney(w.(pool := w'.pool, chain := w'.chain, jobs := w'.jobs), r, w'.requests.rows[r].error.value);
    }
  }

  lemma PollMoney(w: World, r: RequestId, completed: bool)
    requires MoneyOf(w) && JobsOk(w.jobs, w.requests.rows) && Possible(w, Poll(r, completed))
    ensures MoneyOf(FinishPolling(w, r, completed))
  {
    var w' := FinishPolling(w, r, completed);
    if completed {
      SameMoney(w.book, w.requests.rows, r, w.requests.rows[r].(status := Completed), w.price);
    } else {
      MarkFailedMoney(w.(pool := w'.pool, jobs := w'.jobs), r, CoordinatorTimeout);
    }
  }

  lemma SubmitMoney(w: World, user: UserId, network: Network, r: RequestId)
    requires MoneyOf(w)
    ensures MoneyOf(Submit(w, user, network, r).0)
  {
    if r in w.requests.rows && w.requests.rows[r].status == SignStatus.Prepared {
      SameMoney(w.book, w.requests.rows, r, w.requests.rows[r].(status := Queued, signed := true), w.price);
    }
  }

  lemma BillMoney(w: World, op: Op)
    requires MoneyOf(w) && Possible(w, Bill(op))
    ensures MoneyOf(Next(w, Bill(op)))
  {
    SerialKeeps(w.book, op);
    if op.ChargeTx? || op.RefundTx? {
      StrayOpMoney(w.book, w.requests.rows, op.args, w.price);
    }
  }

  lemma NextMoney(w: World, e: Event)
    requires MoneyOf(w) && JobsOk(w.jobs, w.requests.rows) && Possible(w, e)
    ensures MoneyOf(Next(w, e))
  {
    match e
    case PrepareSign(a) => PrepareMoney(w, a);
    case SubmitSign(user, network, r) => SubmitMoney(w, user, network, r);
    case Begin(r, dwallet) => BeginMoney(w, r, dwallet);
    case Run(r, o, fate, signId) => RunMoney(w, r, o, fate, signId);
    case Poll(r, completed) => PollMoney(w, r, completed);
    case Expire(r) => MarkFailedMoney(w, r, PrepareExpired);
    case Bill(op) => BillMoney(w, op);
    case _ =>
  }

  lemma CrashKeeps(w: World, r: RequestId)
    requires CoreOf(w)
    ensures CoreOf(w.(jobs := w.jobs - {r}))
  {
  }

  lemma NextCore(w: World, e: Event)
    requires CoreOf(w) && Possible(w, e) && Timely(w, e)
    ensures CoreOf(Next(w, e))
  {
    match e
    case Mint(c, bucket) => MintKeeps(w, c, bucket);
    case Track(p, c) => TrackKeeps(w, p, c);
    case Promote(p) => PromoteKeeps(w, p);
    case PrepareSign(a) => PrepareKeeps(w, a);
    case SubmitSign(user, network, r) => SubmitKeeps(w, user, network, r);
    case Begin(r, dwallet) => BeginKeeps(w, r, dwallet);
    case Run(r, o, fate, signId) => RunKeeps(w, r, o, fate, signId);
    case Poll(r, completed) => PollKeeps(w, r, completed);
    case Crash(r) => CrashKeeps(w, r);
    case Settle(r, executes) => SettleKeeps(w, r, executes);
    case Expire(r) => ExpireKeeps(w, r);
    case SweepPresigns(rescued, parked) => SweepKeepsExactly(w, rescued, parked);
    case ReconcileOne(r) => ReconcileKeeps(w, r);
    case Bill(_) =>
  }

  /** Every event that meets the timing assumptions keeps the invariant. */
  lemma NextKeeps(w: World, e: Event)
    requires Inv(w) && Possible(w, e) && Timely(w, e)
    ensures Inv(Next(w, e))
  {
    NextCore(w, e);
    NextMoney(w, e);
  }

  lemma {:induction false} InvThroughout(ws: seq<World>, es: seq<Event>, i: nat)
    requires IsRun(ws, es) && i < |ws|
    ensures Inv(ws[i])
  {
    if i > 0 {
      InvThroughout(ws, es, i - 1);
      NextKeeps(ws[i - 1], es[i - 1]);
    }
  }
}
