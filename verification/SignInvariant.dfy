/** What every event of the sign pipeline keeps. */
module SignInvariant {
  import opened Common
  import opened Ledger
  import opened SignPipeline
  import TxExecutor

  type Rows = map<RequestId, Request>

  // ---------------------------------------------------------------------------
  // The invariant, table by table
  // ---------------------------------------------------------------------------

  ghost predicate IndexOk(t: Requests) {
    && (forall k :: k in t.index ==> t.index[k] in t.rows && t.rows[t.index[k]].idem == k)
    && (forall r :: r in t.rows ==> t.rows[r].idem in t.index && t.index[t.rows[r].idem] == r)
  }

  ghost predicate LinksOk(rows: Rows, pool: Pool) {
    forall r :: r in rows ==>
      && (rows[r].presign.Some? ==> rows[r].presign.value in pool)
      && (rows[r].status == Queued || rows[r].Spent() ==> rows[r].presign.Some? && rows[r].signed)
  }

  /** A presign that may still be spent: its cap is alive and no unsettled transaction can burn it. */
  predicate InStock(p: Presign) { p.status == Pending || p.status == Ready || p.status == Allocated }

  ghost predicate Untouched(chain: Chain, cap: CapId) { chain.Alive(cap) && cap !in chain.inFlight.Values }

  ghost predicate PoolOk(pool: Pool, chain: Chain) {
    && (forall p :: p in pool ==> pool[p].cap in chain.minted && pool[p].bucket == chain.minted[pool[p].cap])
    && (forall p, q :: p in pool && q in pool && pool[p].cap == pool[q].cap ==> p == q)
    && (forall p :: p in pool && InStock(pool[p]) ==> Untouched(chain, pool[p].cap))
    && (forall p :: p in pool && (pool[p].status == Pending || pool[p].status == Ready) ==> pool[p].owner.None?)
  }

  /** A prepared or queued request's presign is allocated to it. */
  ghost predicate Owned(pool: Pool, rows: Rows) {
    forall r :: r in rows && rows[r].Active() && rows[r].presign.Some? && rows[r].presign.value in pool ==>
      && pool[rows[r].presign.value].status == Allocated
      && pool[rows[r].presign.value].owner == Some(r)
  }

  ghost predicate JobsOk(jobs: map<RequestId, Job>, rows: Rows) {
    forall r :: r in jobs ==>
      && r in rows
      && rows[r].presign == Some(jobs[r].presign)
      && rows[r].status == (if jobs[r].Executing? then Queued else Submitted)
  }

  /** A submitted or completed request burned the cap of its own presign. */
  ghost predicate SpentOk(rows: Rows, pool: Pool, chain: Chain) {
    forall r :: r in rows && rows[r].Spent() && rows[r].presign.Some? && rows[r].presign.value in pool ==>
      && pool[rows[r].presign.value].cap in chain.burnedBy
      && chain.burnedBy[pool[rows[r].presign.value].cap] == r
  }

  /** An unsettled transaction belongs to a failed request whose outcome is unknown, and to its presign's cap. */
  ghost predicate FlightOk(rows: Rows, pool: Pool, chain: Chain) {
    && (forall r :: r in chain.inFlight ==>
          && r in rows && rows[r].status == Unsuccessful && rows[r].error == Some(SubmitUnknown)
          && rows[r].presign.Some? && rows[r].presign.value in pool
          && pool[rows[r].presign.value].cap == chain.inFlight[r])
    && (forall c :: c in chain.burnedBy ==> c in chain.minted)
  }

  function ChargeKey(idem: IdemKey, r: RequestId): OpKey { OpKey(idem.network, Sign, r, Charge) }

  function RefundKey(idem: IdemKey, r: RequestId): OpKey { OpKey(idem.network, Sign, r, Refund) }

  /** One charge per row at the sign price, and one refund exactly when the row failed. */
  ghost predicate Billed(entries: seq<Entry>, rows: Rows, price: int) {
    forall r :: r in rows ==> RowBilled(entries, r, rows[r], price)
  }

  ghost predicate RowBilled(entries: seq<Entry>, r: RequestId, row: Request, price: int) {
    && price > 0
    && Find(entries, ChargeKey(row.idem, r)) == Some(Entry(row.idem.user, ChargeKey(row.idem, r), -price))
    && Find(entries, RefundKey(row.idem, r)) ==
         (if row.status == Unsuccessful then Some(Entry(row.idem.user, RefundKey(row.idem, r), price)) else None)
    && forall n: Network, k :: n != row.idem.network ==> Find(entries, OpKey(n, Sign, r, k)).None?
  }

  /** Everything but the money. */
  ghost predicate Core(pool: Pool, t: Requests, chain: Chain, jobs: map<RequestId, Job>) {
    && IndexOk(t)
    && LinksOk(t.rows, pool)
    && PoolOk(pool, chain)
    && Owned(pool, t.rows)
    && JobsOk(jobs, t.rows)
    && SpentOk(t.rows, pool, chain)
    && FlightOk(t.rows, pool, chain)
  }

  ghost predicate Money(book: Book, rows: Rows, price: int) {
    Billed(book.entries, rows, price) && BookInv(book)
  }

  ghost predicate CoreOf(w: World) { Core(w.pool, w.requests, w.chain, w.jobs) }

  ghost predicate MoneyOf(w: World) { Money(w.book, w.requests.rows, w.price) }

  ghost predicate Inv(w: World) { CoreOf(w) && MoneyOf(w) }

  // ---------------------------------------------------------------------------
  // Building blocks
  // ---------------------------------------------------------------------------

  lemma RefundBills(b: Book, rows: Rows, r: RequestId, row: Request, price: int)
    requires r in rows && Billed(b.entries, rows, price) && UniqueKeys(b.entries)
    requires row.idem == rows[r].idem && row.status == Unsuccessful
    ensures Billed(RefundOp(b, SignArgs(row.idem, r, price)).0.entries, rows[r := row], price)
  {
    var b' := RefundOp(b, SignArgs(row.idem, r, price)).0;
    var rows' := rows[r := row];
    forall s | s in rows' ensures RowBilled(b'.entries, s, rows'[s], price) {
      assert RowBilled(b.entries, s, rows[s], price);
      if s == r {
        RefundBillsRow(b, r, rows[r], row, price);
      } else {
        RefundSparesRow(b, SignArgs(row.idem, r, price), s, rows[s], price);
      }
    }
  }

  /** Refunding a row, for the first time or again, leaves one charge and one refund. */
  lemma RefundBillsRow(b: Book, r: RequestId, was: Request, row: Request, price: int)
    requires UniqueKeys(b.entries) && RowBilled(b.entries, r, was, price)
    requires row.idem == was.idem && row.status == Unsuccessful
    ensures RowBilled(RefundOp(b, SignArgs(row.idem, r, price)).0.entries, r, row, price)
  {
    var c := SignArgs(row.idem, r, price);
    SumOfUnique(b.entries, c.Key(Charge));
    SumOfUnique(b.entries, c.Key(Refund));
    forall n, k ensures Find(RefundOp(b, c).0.entries, OpKey(n, Sign, r, k)) ==
        if OpKey(n, Sign, r, k) == c.Key(Refund) && RefundOp(b, c).1.Ok? then Some(RefundOp(b, c).1.value)
        else Find(b.entries, OpKey(n, Sign, r, k))
    {
      FindAfterRefund(b, c, OpKey(n, Sign, r, k));
    }
  }

  lemma RefundSparesRow(b: Book, c: OpArgs, s: RequestId, row: Request, price: int)
    requires RowBilled(b.entries, s, row, price) && c.opType == Sign && c.opId != s
    ensures RowBilled(RefundOp(b, c).0.entries, s, row, price)
  {
    forall n, k ensures Find(RefundOp(b, c).0.entries, OpKey(n, Sign, s, k)) == Find(b.entries, OpKey(n, Sign, s, k)) {
      FindAfterRefund(b, c, OpKey(n, Sign, s, k));
    }
  }

  /** The rows whose key is not the one written stay billed. */
  lemma OthersStayBilled(entries: seq<Entry>, entries': seq<Entry>, rows: Rows, price: int)
    requires Billed(entries, rows, price)
    requires forall r, n, k :: r in rows ==> Find(entries', OpKey(n, Sign, r, k)) == Find(entries, OpKey(n, Sign, r, k))
    ensures Billed(entries', rows, price)
  {
    forall r | r in rows ensures RowBilled(entries', r, rows[r], price) {
      assert RowBilled(entries, r, rows[r], price);
    }
  }

  lemma RefundMoney(b: Book, rows: Rows, r: RequestId, row: Request, price: int)
    requires r in rows && Money(b, rows, price)
    requires row.idem == rows[r].idem && row.status == Unsuccessful
    ensures Money(RefundOp(b, SignArgs(row.idem, r, price)).0, rows[r := row], price)
  {
    RefundBills(b, rows, r, row, price);
    RefundKeeps(b, SignArgs(row.idem, r, price));
  }

  /** Status changes that neither fail a row nor revive one leave the money alone. */
  lemma SameMoney(b: Book, rows: Rows, r: RequestId, row: Request, price: int)
    requires r in rows && Money(b, rows, price)
    requires row.idem == rows[r].idem && (row.status == Unsuccessful <==> rows[r].status == Unsuccessful)
    ensures Money(b, rows[r := row], price)
  {
    var rows' := rows[r := row];
    forall s | s in rows' ensures RowBilled(b.entries, s, rows'[s], price) {
      assert RowBilled(b.entries, s, rows[s], price);
    }
  }

  /** The chain after one job's transaction: at most its own cap burned, or in flight. */
  ghost predicate OwnCapOnly(chain: Chain, chain': Chain, r: RequestId, cap: CapId) {
    && chain'.minted == chain.minted
    && (chain'.burnedBy == chain.burnedBy || (chain.Alive(cap) && chain'.burnedBy == chain.burnedBy[cap := r]))
    && (chain'.inFlight == chain.inFlight || chain'.inFlight == chain.inFlight[r := cap])
  }

  /** Replacing one presign's row, after a transaction that could touch only its cap. */
  lemma PoolAfter(pool: Pool, chain: Chain, chain': Chain, r: RequestId, p: PresignId, x: Presign)
    requires PoolOk(pool, chain) && p in pool
    requires x.cap == pool[p].cap && x.bucket == pool[p].bucket
    requires x.status == Ready || x.status == Pending ==> x.owner.None?
    requires OwnCapOnly(chain, chain', r, x.cap)
    requires InStock(x) ==> Untouched(chain', x.cap)
    ensures PoolOk(pool[p := x], chain')
  {
    var pool' := pool[p := x];
    forall q | q in pool' && InStock(pool'[q]) ensures Untouched(chain', pool'[q].cap) {
      if q != p {
        assert pool[q].cap != pool[p].cap;
        assert Untouched(chain, pool[q].cap);
        forall c | c in chain'.inFlight.Values ensures c in chain.inFlight.Values || c == x.cap {
          var s :| s in chain'.inFlight && chain'.inFlight[s] == c;
          if s in chain.inFlight && chain.inFlight[s] == c { assert c in chain.inFlight.Values; }
        }
      }
    }
  }

  /** Requests other than r keep their spent caps and their unsettled transactions. */
  lemma ChainAfterKeeps(rows: Rows, pool: Pool, chain: Chain, chain': Chain, r: RequestId, p: PresignId, x: Presign, row: Request)
    requires SpentOk(rows, pool, chain) && FlightOk(rows, pool, chain)
    requires r in rows && rows[r].presign == Some(p) && row.presign == rows[r].presign && r !in chain.inFlight
    requires p in pool && x.cap == pool[p].cap
    requires OwnCapOnly(chain, chain', r, x.cap)
    requires x.cap in chain.minted
    requires chain'.inFlight != chain.inFlight ==> row.status == Unsuccessful && row.error == Some(SubmitUnknown)
    requires row.Spent() ==> x.cap in chain'.burnedBy && chain'.burnedBy[x.cap] == r
    ensures SpentOk(rows[r := row], pool[p := x], chain')
    ensures FlightOk(rows[r := row], pool[p := x], chain')
  {
  }

  /** After r lets go of p, or p leaves the pool, the other claims stand. */
  lemma OwnedAfter(pool: Pool, rows: Rows, r: RequestId, p: PresignId, x: Presign, row: Request)
    requires Owned(pool, rows) && p in pool && r in rows && rows[r].presign == Some(p) && row.presign == Some(p)
    requires rows[r].Active() || pool[p].status != Allocated
    requires !row.Active()
    ensures Owned(pool[p := x], rows[r := row])
  {
  }

  /** A live request fails: its presign gets a new status, its transaction touched at most its own cap. */
  lemma FailureKeeps(pool: Pool, t: Requests, chain: Chain, jobs: map<RequestId, Job>,
                     r: RequestId, p: PresignId, x: Presign, chain': Chain, code: ErrorCode)
    requires Core(pool, t, chain, jobs)
    requires r in t.rows && t.rows[r].presign == Some(p) && t.rows[r].status != Unsuccessful
    requires p in pool && x.cap == pool[p].cap && x.bucket == pool[p].bucket
    requires x.status == Ready || x.status == Pending ==> x.owner.None?
    requires OwnCapOnly(chain, chain', r, x.cap)
    requires InStock(x) ==> Untouched(chain', x.cap)
    requires chain'.inFlight != chain.inFlight ==> code == SubmitUnknown
    ensures Core(pool[p := x], SetRow(t, r, t.rows[r].(status := Unsuccessful, error := Some(code))), chain', jobs - {r})
  {
    var row := t.rows[r].(status := Unsuccessful, error := Some(code));
    IndexAfter(t, r, row);
    LinksAfter(t.rows, pool, r, row, p, x);
    PoolAfter(pool, chain, chain', r, p, x);
    ChainAfterKeeps(t.rows, pool, chain, chain', r, p, x, row);
    OwnedAfter(pool, t.rows, r, p, x, row);
    JobEnds(jobs, t.rows, r, row);
  }

  /** A row with no presign can fail at any time. */
  lemma UnlinkedFailureKeeps(pool: Pool, t: Requests, chain: Chain, jobs: map<RequestId, Job>, r: RequestId, row: Request)
    requires Core(pool, t, chain, jobs)
    requires r in t.rows && t.rows[r].presign.None?
    requires row == t.rows[r].(status := Unsuccessful, error := row.error)
    ensures Core(pool, SetRow(t, r, row), chain, jobs)
  {
    RowSetKeeps(pool, t, chain, jobs, r, row);
  }

  /** A row with no job and no spent cap changes status, keeping its link; if it stays active its claim stands. */
  lemma RowSetKeeps(pool: Pool, t: Requests, chain: Chain, jobs: map<RequestId, Job>, r: RequestId, row: Request)
    requires Core(pool, t, chain, jobs)
    requires r in t.rows && r !in jobs && r !in chain.inFlight
    requires row.idem == t.rows[r].idem && row.presign == t.rows[r].presign && !row.Spent()
    requires row.Active() ==> t.rows[r].Active()
    requires row.status == Queued ==> row.presign.Some? && row.signed
    ensures Core(pool, SetRow(t, r, row), chain, jobs)
  {
    IndexAfter(t, r, row);
    RowsAfter(t.rows, pool, chain, jobs, r, row);
  }

  lemma IndexAfter(t: Requests, r: RequestId, row: Request)
    requires IndexOk(t) && r in t.rows && row.idem == t.rows[r].idem
    ensures IndexOk(SetRow(t, r, row))
  {
  }

  lemma RowsAfter(rows: Rows, pool: Pool, chain: Chain, jobs: map<RequestId, Job>, r: RequestId, row: Request)
    requires LinksOk(rows, pool) && Owned(pool, rows) && JobsOk(jobs, rows) && SpentOk(rows, pool, chain) && FlightOk(rows, pool, chain)
    requires r in rows && r !in jobs && r !in chain.inFlight
    requires row.presign == rows[r].presign && !row.Spent()
    requires row.Active() ==> rows[r].Active()
    requires row.status == Queued ==> row.presign.Some? && row.signed
    ensures LinksOk(rows[r := row], pool) && Owned(pool, rows[r := row]) && JobsOk(jobs, rows[r := row])
    ensures SpentOk(rows[r := row], pool, chain) && FlightOk(rows[r := row], pool, chain)
  {
  }

  lemma LinksAfter(rows: Rows, pool: Pool, r: RequestId, row: Request, p: PresignId, x: Presign)
    requires LinksOk(rows, pool) && r in rows && p in pool
    requires row.presign == rows[r].presign == Some(p) && row.signed == rows[r].signed
    requires row.status == Queued || row.Spent() ==> row.signed
    ensures LinksOk(rows[r := row], pool[p := x])
  {
  }

  /** The transaction executed: the row is submitted and its presign leaves the stock for good. */
  lemma SubmissionKeeps(pool: Pool, t: Requests, chain: Chain, jobs: map<RequestId, Job>, r: RequestId, p: PresignId)
    requires Core(pool, t, chain, jobs)
    requires r in jobs && jobs[r] == Executing(p) && r in t.rows && p in pool
    requires chain.Alive(pool[p].cap)
    ensures Core(SetStatus(pool, p, ConsumedPending), SetRow(t, r, t.rows[r].(status := Submitted)),
                 chain.(burnedBy := chain.burnedBy[pool[p].cap := r]), jobs[r := Polling(p)])
  {
    var chain' := chain.(burnedBy := chain.burnedBy[pool[p].cap := r]);
    var x, row := pool[p].(status := ConsumedPending), t.rows[r].(status := Submitted);
    SpendKeeps(pool, t, chain, jobs, r, p, x, row, chain');
    JobMoves(jobs, t.rows, r, row, Polling(p));
  }

  /** A job's row becomes submitted or completed, and its presign leaves the stock. */
  lemma SpendKeeps(pool: Pool, t: Requests, chain: Chain, jobs: map<RequestId, Job>,
                   r: RequestId, p: PresignId, x: Presign, row: Request, chain': Chain)
    requires Core(pool, t, chain, jobs)
    requires r in jobs && jobs[r].presign == p && r in t.rows && p in pool
    requires x.cap == pool[p].cap && x.bucket == pool[p].bucket && !InStock(x)
    requires OwnCapOnly(chain, chain', r, x.cap) && chain'.inFlight == chain.inFlight
    requires x.cap in chain'.burnedBy && chain'.burnedBy[x.cap] == r
    requires row.Spent() && row == t.rows[r].(status := row.status)
    ensures IndexOk(SetRow(t, r, row)) && LinksOk(t.rows[r := row], pool[p := x]) && PoolOk(pool[p := x], chain')
    ensures Owned(pool[p := x], t.rows[r := row]) && SpentOk(t.rows[r := row], pool[p := x], chain')
    ensures FlightOk(t.rows[r := row], pool[p := x], chain')
  {
    JobFacts(pool, t, chain, jobs, r);
    IndexAfter(t, r, row);
    LinksAfter(t.rows, pool, r, row, p, x);
    PoolAfter(pool, chain, chain', r, p, x);
    ChainAfterKeeps(t.rows, pool, chain, chain', r, p, x, row);
    OwnedAfter(pool, t.rows, r, p, x, row);
  }

  /** What the invariant says of a request with a running job. */
  lemma JobFacts(pool: Pool, t: Requests, chain: Chain, jobs: map<RequestId, Job>, r: RequestId)
    requires Core(pool, t, chain, jobs) && r in jobs
    ensures r in t.rows && t.rows[r].presign == Some(jobs[r].presign) && jobs[r].presign in pool
    ensures r !in chain.inFlight && t.rows[r].signed
    ensures jobs[r].Executing? ==>
              && t.rows[r].status == Queued
              && pool[jobs[r].presign].status == Allocated && pool[jobs[r].presign].owner == Some(r)
              && Untouched(chain, pool[jobs[r].presign].cap)
    ensures jobs[r].Polling? ==>
              && t.rows[r].status == Submitted
              && pool[jobs[r].presign].cap in chain.burnedBy && chain.burnedBy[pool[jobs[r].presign].cap] == r
              && !InStock(pool[jobs[r].presign])
  {
  }

  lemma JobMoves(jobs: map<RequestId, Job>, rows: Rows, r: RequestId, row: Request, job: Job)
    requires JobsOk(jobs, rows) && r in rows
    requires row.presign == Some(job.presign) && row.status == if job.Executing? then Queued else Submitted
    ensures JobsOk(jobs[r := job], rows[r := row])
  {
  }

  lemma JobEnds(jobs: map<RequestId, Job>, rows: Rows, r: RequestId, row: Request)
    requires JobsOk(jobs, rows)
    ensures JobsOk(jobs - {r}, rows[r := row])
  {
  }

  lemma CompletionKeeps(pool: Pool, t: Requests, chain: Chain, jobs: map<RequestId, Job>, r: RequestId, p: PresignId)
    requires Core(pool, t, chain, jobs)
    requires r in jobs && jobs[r] == Polling(p) && r in t.rows && p in pool
    ensures Core(SetStatus(pool, p, Used), SetRow(t, r, t.rows[r].(status := Completed)), chain, jobs - {r})
  {
    JobFacts(pool, t, chain, jobs, r);
    var x, row := pool[p].(status := Used), t.rows[r].(status := Completed);
    SpendKeeps(pool, t, chain, jobs, r, p, x, row, chain);
    JobEnds(jobs, t.rows, r, row);
  }

  // ---------------------------------------------------------------------------
  // The sign job
  // ---------------------------------------------------------------------------

  lemma BeginKeeps(w: World, r: RequestId, dwallet: DwalletRow)
    requires CoreOf(w) && Possible(w, Begin(r, dwallet))
    ensures CoreOf(StartJob(w, r, dwallet))
  {
    if r in w.requests.rows && w.requests.rows[r].status == Queued {
      var row := w.requests.rows[r];
      assert row.presign.Some? && row.signed && row.presign.value in w.pool && r !in w.chain.inFlight;
      if dwallet.Vanished? {
        RowSetKeeps(w.pool, w.requests, w.chain, w.jobs, r, row.(status := Unsuccessful, error := Some(DwalletGone)));
      } else if dwallet.Present? {
        JobMoves(w.jobs, w.requests.rows, r, row, Executing(row.presign.value));
        assert w.requests.rows[r := row] == w.requests.rows;
      }
    }
  }

  /** A transaction that was posted touches at most the job's own cap. */
  lemma OwnTransaction(w: World, r: RequestId, o: TxExecutor.Observation, fate: TxExecutor.Fate, signId: bool)
    requires CoreOf(w) && Possible(w, Run(r, o, fate, signId))
    ensures OwnCapOnly(w.chain, ChainAfter(w.chain, r, w.pool[w.jobs[r].presign].cap, fate), r, w.pool[w.jobs[r].presign].cap)
    ensures TxExecutor.Execute(o).Done? ==>
              ChainAfter(w.chain, r, w.pool[w.jobs[r].presign].cap, fate).inFlight == w.chain.inFlight
  {
  }

  lemma FailedRunKeeps(w: World, r: RequestId, x: Presign, chain': Chain, code: ErrorCode)
    requires CoreOf(w) && r in w.jobs && w.jobs[r].presign in w.pool
    requires x.cap == w.pool[w.jobs[r].presign].cap && x.bucket == w.pool[w.jobs[r].presign].bucket
    requires x.status == Ready || x.status == Pending ==> x.owner.None?
    requires OwnCapOnly(w.chain, chain', r, x.cap)
    requires InStock(x) ==> Untouched(chain', x.cap)
    requires chain'.inFlight != w.chain.inFlight ==> code == SubmitUnknown
    ensures CoreOf(MarkFailed(w.(pool := w.pool[w.jobs[r].presign := x], chain := chain', jobs := w.jobs - {r}), r, code))
  {
    JobFacts(w.pool, w.requests, w.chain, w.jobs, r);
    FailureKeeps(w.pool, w.requests, w.chain, w.jobs, r, w.jobs[r].presign, x, chain', code);
  }

  /** The failing outcomes of a job, spelled out. */
  lemma FailedRunShape(w: World, r: RequestId, o: TxExecutor.Observation, fate: TxExecutor.Fate, signId: bool)
    requires Possible(w, Run(r, o, fate, signId))
    requires !TxExecutor.Execute(o).Done? || !signId
    ensures var p := w.jobs[r].presign;
            var outcome, x := TxExecutor.Execute(o), w.pool[p];
            var rollback := TxExecutor.Rollbackable(outcome);
            FinishExecute(w, r, o, fate, signId) ==
              MarkFailed(w.(pool := w.pool[p := if rollback then x.(status := Ready, owner := None) else x.(status := Used)],
                            chain := ChainAfter(w.chain, r, x.cap, fate),
                            jobs := w.jobs - {r}),
                         r, if outcome.Done? then NoSignId else if rollback then SubmitFailed else SubmitUnknown)
  {
  }

  /** Once the executor has answered, the job's presign is back in the pool only if its cap is untouched. */
  lemma RunKeeps(w: World, r: RequestId, o: TxExecutor.Observation, fate: TxExecutor.Fate, signId: bool)
    requires CoreOf(w) && Possible(w, Run(r, o, fate, signId))
    ensures CoreOf(FinishExecute(w, r, o, fate, signId))
  {
    if TxExecutor.Execute(o).Done? && signId {
      SubmittedRunKeeps(w, r, o, fate);
    } else {
      FailingRunKeeps(w, r, o, fate, signId);
    }
  }

  lemma FailingRunKeeps(w: World, r: RequestId, o: TxExecutor.Observation, fate: TxExecutor.Fate, signId: bool)
    requires CoreOf(w) && Possible(w, Run(r, o, fate, signId))
    requires !TxExecutor.Execute(o).Done? || !signId
    ensures CoreOf(FinishExecute(w, r, o, fate, signId))
  {
    if TxExecutor.Rollbackable(TxExecutor.Execute(o)) {
      RolledBackRunKeeps(w, r, o, fate, signId);
    } else {
      SpentRunKeeps(w, r, o, fate, signId);
    }
  }

  lemma RolledBackRunKeeps(w: World, r: RequestId, o: TxExecutor.Observation, fate: TxExecutor.Fate, signId: bool)
    requires CoreOf(w) && Possible(w, Run(r, o, fate, signId))
    requires TxExecutor.Rollbackable(TxExecutor.Execute(o))
    ensures CoreOf(FinishExecute(w, r, o, fate, signId))
  {
    var x := w.pool[w.jobs[r].presign];
    FailedRunShape(w, r, o, fate, signId);
    UntouchedByRollback(w, r, o, fate, signId);
    FailedRunKeeps(w, r, x.(status := Ready, owner := None), w.chain, SubmitFailed);
  }

  lemma SpentRunKeeps(w: World, r: RequestId, o: TxExecutor.Observation, fate: TxExecutor.Fate, signId: bool)
    requires CoreOf(w) && Possible(w, Run(r, o, fate, signId))
    requires !TxExecutor.Rollbackable(TxExecutor.Execute(o)) && (!TxExecutor.Execute(o).Done? || !signId)
    ensures CoreOf(FinishExecute(w, r, o, fate, signId))
  {
    var x := w.pool[w.jobs[r].presign];
    OwnTransaction(w, r, o, fate, signId);
    FailedRunShape(w, r, o, fate, signId);
    FailedRunKeeps(w, r, x.(status := Used), ChainAfter(w.chain, r, x.cap, fate),
                   if TxExecutor.Execute(o).Done? then NoSignId else SubmitUnknown);
  }

  /** The worker never puts back a presign whose cap its own transaction burned or may yet burn. */
  lemma UntouchedByRollback(w: World, r: RequestId, o: TxExecutor.Observation, fate: TxExecutor.Fate, signId: bool)
    requires CoreOf(w) && Possible(w, Run(r, o, fate, signId))
    requires TxExecutor.Rollbackable(TxExecutor.Execute(o))
    ensures ChainAfter(w.chain, r, w.pool[w.jobs[r].presign].cap, fate) == w.chain
    ensures Untouched(w.chain, w.pool[w.jobs[r].presign].cap)
  {
    TxExecutor.RollbackExactlyWhenUntouched(o);
    JobFacts(w.pool, w.requests, w.chain, w.jobs, r);
  }

  lemma SubmittedRunKeeps(w: World, r: RequestId, o: TxExecutor.Observation, fate: TxExecutor.Fate)
    requires CoreOf(w) && Possible(w, Run(r, o, fate, true)) && TxExecutor.Execute(o).Done?
    ensures CoreOf(FinishExecute(w, r, o, fate, true))
  {
    JobFacts(w.pool, w.requests, w.chain, w.jobs, r);
    SubmissionKeeps(w.pool, w.requests, w.chain, w.jobs, r, w.jobs[r].presign);
    SubmittedRunShape(w, r, o, fate);
  }

  /** The successful outcome of a job, spelled out. */
  lemma SubmittedRunShape(w: World, r: RequestId, o: TxExecutor.Observation, fate: TxExecutor.Fate)
    requires Possible(w, Run(r, o, fate, true)) && TxExecutor.Execute(o).Done? && r in w.requests.rows
    ensures var p := w.jobs[r].presign;
            FinishExecute(w, r, o, fate, true) ==
              w.(pool := SetStatus(w.pool, p, ConsumedPending),
                 requests := SetRow(w.requests, r, w.requests.rows[r].(status := Submitted)),
                 chain := w.chain.(burnedBy := w.chain.burnedBy[w.pool[p].cap := r]),
                 jobs := w.jobs[r := Polling(p)])
  {
    assert (w.jobs - {r})[r := Polling(w.jobs[r].presign)] == w.jobs[r := Polling(w.jobs[r].presign)];
  }

  lemma PollKeeps(w: World, r: RequestId, completed: bool)
    requires CoreOf(w) && Possible(w, Poll(r, completed))
    ensures CoreOf(FinishPolling(w, r, completed))
  {
    var p := w.jobs[r].presign;
    JobFacts(w.pool, w.requests, w.chain, w.jobs, r);
    if completed {
      CompletionKeeps(w.pool, w.requests, w.chain, w.jobs, r, p);
    } else {
      FailureKeeps(w.pool, w.requests, w.chain, w.jobs, r, p, w.pool[p].(status := Used), w.chain, CoordinatorTimeout);
    }
  }

  lemma SubmitKeeps(w: World, user: UserId, network: Network, r: RequestId)
    requires CoreOf(w)
    ensures CoreOf(Submit(w, user, network, r).0)
  {
    if r in w.requests.rows && w.requests.rows[r].status == SignStatus.Prepared && w.requests.rows[r].presign.Some? {
      RowSetKeeps(w.pool, w.requests, w.chain, w.jobs, r, w.requests.rows[r].(status := Queued, signed := true));
    }
  }

  lemma ExpireLinkedKeeps(w: World, r: RequestId, p: PresignId)
    requires CoreOf(w) && r in w.requests.rows && r !in w.jobs
    requires w.requests.rows[r].Active() && w.requests.rows[r].presign == Some(p)
    ensures CoreOf(MarkFailed(w.(pool := RollbackToReady(w.pool, p)), r, PrepareExpired))
  {
    assert p in w.pool && Untouched(w.chain, w.pool[p].cap);
    assert w.jobs - {r} == w.jobs;
    FailureKeeps(w.pool, w.requests, w.chain, w.jobs, r, p, w.pool[p].(status := Ready, owner := None), w.chain, PrepareExpired);
  }

  lemma ExpireKeeps(w: World, r: RequestId)
    requires CoreOf(w)
    ensures CoreOf(ExpirePrepared(w, r))
  {
    if r in w.requests.rows && w.requests.rows[r].status == SignStatus.Prepared {
      var row := w.requests.rows[r];
      assert r !in w.jobs;
      if row.presign.Some? {
        ExpireLinkedKeeps(w, r, row.presign.value);
      } else {
        UnlinkedFailureKeeps(w.pool, w.requests, w.chain, w.jobs, r, row.(status := Unsuccessful, error := Some(PrepareExpired)));
      }
    }
  }

  // ---------------------------------------------------------------------------
  // Pool and chain events
  // ---------------------------------------------------------------------------

  /** The same presigns with the same caps: requests still find what they are linked to. */
  ghost predicate SameCaps(pool: Pool, pool': Pool) {
    forall p :: p in pool ==> p in pool' && pool'[p].cap == pool[p].cap
  }

  lemma SameCapsKeep(rows: Rows, pool: Pool, pool': Pool, chain: Chain)
    requires SameCaps(pool, pool') && LinksOk(rows, pool) && SpentOk(rows, pool, chain) && FlightOk(rows, pool, chain)
    ensures LinksOk(rows, pool') && SpentOk(rows, pool', chain) && FlightOk(rows, pool', chain)
  {
  }

  /** A presign that nobody active links changes row; it may enter the stock only untouched. */
  lemma UnclaimedChange(pool: Pool, rows: Rows, chain: Chain, p: PresignId, x: Presign)
    requires PoolOk(pool, chain) && Owned(pool, rows) && p in pool && Unclaimed(rows, p)
    requires x.cap == pool[p].cap && x.bucket == pool[p].bucket
    requires x.status == Ready || x.status == Pending ==> x.owner.None?
    requires InStock(x) ==> Untouched(chain, x.cap)
    ensures PoolOk(pool[p := x], chain) && Owned(pool[p := x], rows)
  {
  }

  lemma NotAllocatedUnclaimed(w: World, p: PresignId)
    requires CoreOf(w) && p in w.pool && w.pool[p].status != Allocated
    ensures Unclaimed(w.requests.rows, p)
  {
  }

  lemma MintKeeps(w: World, c: CapId, bucket: Bucket)
    requires CoreOf(w) && Possible(w, Mint(c, bucket))
    ensures CoreOf(Next(w, Mint(c, bucket)))
  {
  }

  lemma TrackKeeps(w: World, p: PresignId, c: CapId)
    requires CoreOf(w) && Possible(w, Track(p, c))
    ensures CoreOf(Next(w, Track(p, c)))
  {
    if !Tracked(w.pool, c) {
      assert c !in w.chain.inFlight.Values;
      TrackedPoolOk(w.pool, w.chain, p, c);
      SameCapsKeep(w.requests.rows, w.pool, Next(w, Track(p, c)).pool, w.chain);
    }
  }

  lemma TrackedPoolOk(pool: Pool, chain: Chain, p: PresignId, c: CapId)
    requires PoolOk(pool, chain) && p !in pool && !Tracked(pool, c) && Untouched(chain, c)
    ensures PoolOk(pool[p := Presign(c, chain.minted[c], Pending, None)], chain)
  {
  }

  lemma PromoteKeeps(w: World, p: PresignId)
    requires CoreOf(w) && Possible(w, Promote(p))
    ensures CoreOf(Next(w, Promote(p)))
  {
    NotAllocatedUnclaimed(w, p);
    UnclaimedChange(w.pool, w.requests.rows, w.chain, p, w.pool[p].(status := Ready));
    SameCapsKeep(w.requests.rows, w.pool, SetStatus(w.pool, p, Ready), w.chain);
  }

  lemma ReconcileKeeps(w: World, r: RequestId)
    requires CoreOf(w) && Settled(w, r)
    ensures CoreOf(Reconcile(w, r))
  {
    if Recoverable(w, r) {
      var p := w.requests.rows[r].presign.value;
      NotAllocatedUnclaimed(w, p);
      UnclaimedChange(w.pool, w.requests.rows, w.chain, p, w.pool[p].(status := Ready, owner := None));
      SameCapsKeep(w.requests.rows, w.pool, RollbackToReady(w.pool, p), w.chain);
    }
  }

  lemma SettledPool(pool: Pool, chain: Chain, chain': Chain, r: RequestId)
    requires PoolOk(pool, chain) && r in chain.inFlight
    requires chain'.minted == chain.minted && chain'.inFlight == chain.inFlight - {r}
    requires chain'.burnedBy == chain.burnedBy || chain'.burnedBy == chain.burnedBy[chain.inFlight[r] := r]
    ensures PoolOk(pool, chain')
  {
    assert chain.inFlight[r] in chain.inFlight.Values;
    forall p | p in pool && InStock(pool[p]) ensures Untouched(chain', pool[p].cap) {
      assert Untouched(chain, pool[p].cap);
    }
  }

  lemma SettledRows(rows: Rows, pool: Pool, chain: Chain, chain': Chain, r: RequestId)
    requires SpentOk(rows, pool, chain) && FlightOk(rows, pool, chain) && r in chain.inFlight
    requires chain'.minted == chain.minted && chain'.inFlight == chain.inFlight - {r}
    requires chain'.burnedBy == chain.burnedBy || (chain.Alive(chain.inFlight[r]) && chain'.burnedBy == chain.burnedBy[chain.inFlight[r] := r])
    ensures SpentOk(rows, pool, chain') && FlightOk(rows, pool, chain')
  {
  }

  lemma SettleKeeps(w: World, r: RequestId, executes: bool)
    requires CoreOf(w) && Possible(w, Settle(r, executes))
    ensures CoreOf(Next(w, Settle(r, executes)))
  {
    var chain' := Next(w, Settle(r, executes)).chain;
    SettledPool(w.pool, w.chain, chain', r);
    SettledRows(w.requests.rows, w.pool, w.chain, chain', r);
  }

  lemma SweptPool(pool: Pool, chain: Chain, rescued: set<PresignId>, parked: set<PresignId>)
    requires PoolOk(pool, chain)
    requires forall p :: p in rescued ==> p in pool && pool[p].status == Allocated
    requires forall p :: p in parked ==> p in pool && pool[p].status == ConsumedPending
    ensures PoolOk(Sweep(pool, rescued, parked), chain)
  {
  }

  lemma SweptOwners(pool: Pool, rows: Rows, rescued: set<PresignId>, parked: set<PresignId>)
    requires Owned(pool, rows)
    requires forall p :: p in rescued ==> p in pool && pool[p].status == Allocated && Unclaimed(rows, p)
    requires forall p :: p in parked ==> p in pool && pool[p].status == ConsumedPending
    ensures Owned(Sweep(pool, rescued, parked), rows)
  {
    var pool' := Sweep(pool, rescued, parked);
    forall r | r in rows && rows[r].Active() && rows[r].presign.Some? && rows[r].presign.value in pool'
      ensures pool'[rows[r].presign.value] == pool[rows[r].presign.value]
    {
      assert rows[r].presign == Some(rows[r].presign.value);
    }
  }

  lemma TimelySweepKeeps(w: World, rescued: set<PresignId>, parked: set<PresignId>)
    requires CoreOf(w) && Possible(w, SweepPresigns(rescued, parked)) && SweepAgesAreRight(w, rescued)
    ensures CoreOf(Next(w, SweepPresigns(rescued, parked)))
  {
    var pool', rows := Sweep(w.pool, rescued, parked), w.requests.rows;
    SweptPool(w.pool, w.chain, rescued, parked);
    SweptOwners(w.pool, rows, rescued, parked);
    SameCapsKeep(rows, w.pool, pool', w.chain);
  }

  /** A sweep keeps the invariant exactly when no rescued presign is linked by a prepared or queued request. */
  lemma SweepKeepsExactly(w: World, rescued: set<PresignId>, parked: set<PresignId>)
    requires CoreOf(w) && Possible(w, SweepPresigns(rescued, parked))
    ensures CoreOf(Next(w, SweepPresigns(rescued, parked))) <==> SweepAgesAreRight(w, rescued)
  {
    var pool', rows := Sweep(w.pool, rescued, parked), w.requests.rows;
    if SweepAgesAreRight(w, rescued) {
      TimelySweepKeeps(w, rescued, parked);
    } else {
      var p :| p in rescued && !Unclaimed(rows, p);
      var r :| r in rows && rows[r].Active() && rows[r].presign == Some(p);
      assert pool'[p].status == Ready;
      assert !Owned(pool', rows);
    }
  }
}
