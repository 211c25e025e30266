/** The main results about the sign pipeline, for every run. */
module SignTheorems {
  import opened Common
  import opened Ledger
  import opened SignPipeline
  import opened SignInvariant
  import opened SignRuns
  import TxExecutor

  // ---------------------------------------------------------------------------
  // Ownership
  // ---------------------------------------------------------------------------

  /**
   * In every reachable world a presign is linked by at most one prepared or queued request, which
   * is its recorded owner, and whatever is still in stock has a live cap that no unsettled
   * transaction can burn.
   */
  lemma OneClaimPerPresign(ws: seq<World>, es: seq<Event>, i: nat, r: RequestId, p: PresignId)
    requires IsRun(ws, es) && i < |ws|
    requires r in ws[i].requests.rows && ws[i].requests.rows[r].Active() && ws[i].requests.rows[r].presign == Some(p)
    ensures p in ws[i].pool && ws[i].pool[p].status == Allocated && ws[i].pool[p].owner == Some(r)
    ensures Untouched(ws[i].chain, ws[i].pool[p].cap)
    ensures forall s :: s in ws[i].requests.rows && ws[i].requests.rows[s].Active() && ws[i].requests.rows[s].presign == Some(p) ==> s == r
  {
    InvThroughout(ws, es, i);
    ClaimFacts(ws[i], r, p);
  }

  lemma ClaimFacts(w: World, r: RequestId, p: PresignId)
    requires CoreOf(w) && r in w.requests.rows && w.requests.rows[r].Active() && w.requests.rows[r].presign == Some(p)
    ensures p in w.pool && w.pool[p].status == Allocated && w.pool[p].owner == Some(r)
    ensures Untouched(w.chain, w.pool[p].cap)
    ensures forall s :: s in w.requests.rows && w.requests.rows[s].Active() && w.requests.rows[s].presign == Some(p) ==> s == r
  {
  }

  /** No job hands the executor a burned cap, a cap in flight, or a cap that another request holds. */
  lemma NoJobOnASharedOrBurnedCap(ws: seq<World>, es: seq<Event>, i: nat, r: RequestId)
    requires IsRun(ws, es) && i < |ws| && r in ws[i].jobs && ws[i].jobs[r].Executing?
    ensures ws[i].jobs[r].presign in ws[i].pool
    ensures Untouched(ws[i].chain, ws[i].pool[ws[i].jobs[r].presign].cap)
    ensures ws[i].pool[ws[i].jobs[r].presign].owner == Some(r)
    ensures forall s :: s in ws[i].jobs && s != r ==> ws[i].jobs[s].presign != ws[i].jobs[r].presign
  {
    InvThroughout(ws, es, i);
    var w := ws[i];
    JobFacts(w.pool, w.requests, w.chain, w.jobs, r);
    forall s | s in w.jobs ensures s != r ==> w.jobs[s].presign != w.jobs[r].presign {
      JobFacts(w.pool, w.requests, w.chain, w.jobs, s);
    }
  }

  /** Requests that reached the chain burned a cap each, their own: no two share one. */
  lemma SpentRequestsBurnedTheirOwnCap(ws: seq<World>, es: seq<Event>, i: nat, r: RequestId, s: RequestId)
    requires IsRun(ws, es) && i < |ws| && r != s
    requires r in ws[i].requests.rows && s in ws[i].requests.rows
    requires ws[i].requests.rows[r].Spent() && ws[i].requests.rows[s].Spent()
    ensures ws[i].requests.rows[r].presign.Some? && ws[i].requests.rows[s].presign.Some?
    ensures ws[i].requests.rows[r].presign.value in ws[i].pool && ws[i].requests.rows[s].presign.value in ws[i].pool
    ensures ws[i].pool[ws[i].requests.rows[r].presign.value].cap in ws[i].chain.burnedBy
    ensures ws[i].chain.burnedBy[ws[i].pool[ws[i].requests.rows[r].presign.value].cap] == r
    ensures ws[i].pool[ws[i].requests.rows[r].presign.value].cap != ws[i].pool[ws[i].requests.rows[s].presign.value].cap
  {
    InvThroughout(ws, es, i);
    SpentFacts(ws[i], r);
    SpentFacts(ws[i], s);
  }

  lemma SpentFacts(w: World, r: RequestId)
    requires CoreOf(w) && r in w.requests.rows && w.requests.rows[r].Spent()
    ensures w.requests.rows[r].presign.Some? && w.requests.rows[r].presign.value in w.pool
    ensures w.pool[w.requests.rows[r].presign.value].cap in w.chain.burnedBy
    ensures w.chain.burnedBy[w.pool[w.requests.rows[r].presign.value].cap] == r
  {
  }

  // ---------------------------------------------------------------------------
  // Money
  // ---------------------------------------------------------------------------

  /** A failed request has cost its user nothing; every other request has cost exactly the price. */
  lemma NetCost(ws: seq<World>, es: seq<Event>, i: nat, r: RequestId)
    requires IsRun(ws, es) && i < |ws| && r in ws[i].requests.rows
    ensures var row, entries := ws[i].requests.rows[r], ws[i].book.entries;
            && SumFor(entries, ChargeKey(row.idem, r)) + ws[i].price == 0
            && SumFor(entries, RefundKey(row.idem, r)) == (if row.status == Unsuccessful then ws[i].price else 0)
    ensures BookInv(ws[i].book)
  {
    InvThroughout(ws, es, i);
    var row, entries := ws[i].requests.rows[r], ws[i].book.entries;
    assert RowBilled(entries, r, row, ws[i].price);
    SumOfUnique(entries, ChargeKey(row.idem, r));
    SumOfUnique(entries, RefundKey(row.idem, r));
  }

  /** A charge under a sign id that no row carries and no refund answers. */
  ghost predicate Orphan(w: World, n: Network, id: RequestId) {
    && id !in w.requests.rows
    && Find(w.book.entries, OpKey(n, Sign, id, Charge)).Some?
    && Find(w.book.entries, OpKey(n, Sign, id, Refund)).None?
  }

  /** The row under a key exists but has no presign: a prepare died, or its key lookup threw, in between. */
  predicate HalfPrepared(w: World, idem: IdemKey) { idem in w.requests.index && Linked(w, idem).None? }

  /**
   * A prepare charges without leaving a row or a refund exactly when it retries a half-prepared
   * key on an active dwallet with the funds to pay: the charge commits, then the row insert
   * breaks the unique index.
   */
  lemma OrphanedChargeExactly(w: World, a: PrepareArgs)
    requires MoneyOf(w) && FreshId(w, a.newId)
    ensures Orphan(Prepare(w, a).0, a.idem.network, a.newId) <==>
              && HalfPrepared(w, a.idem) && a.dwallet.Active?
              && Account(a.idem.user, a.idem.network) in w.book.accounts
              && 0 < w.price <= w.book.accounts[Account(a.idem.user, a.idem.network)]
  {
    FreshChargeSucceedsExactly(w, a);
    if Linked(w, a.idem).None? && a.dwallet.Active? {
      NewOrphan(w, a, a.dwallet.curve);
    } else {
      FreshIdFindsNothing(w, a.newId);
      assert Prepare(w, a).0.book == w.book;
    }
  }

  lemma FreshChargeSucceedsExactly(w: World, a: PrepareArgs)
    requires FreshId(w, a.newId)
    ensures var holder := Account(a.idem.user, a.idem.network);
            ChargeOp(w.book, SignArgs(a.idem, a.newId, w.price)).1.Ok? <==>
              holder in w.book.accounts && 0 < w.price <= w.book.accounts[holder]
  {
    FreshIdFindsNothing(w, a.newId);
  }

  lemma NewOrphan(w: World, a: PrepareArgs, curve: nat)
    requires MoneyOf(w) && FreshId(w, a.newId)
    ensures Orphan(PrepareNew(w, a, curve).0, a.idem.network, a.newId) <==>
              a.idem in w.requests.index && ChargeOp(w.book, SignArgs(a.idem, a.newId, w.price)).1.Ok?
  {
    var c := SignArgs(a.idem, a.newId, w.price);
    FreshIdFindsNothing(w, a.newId);
    FindAfter(w.book, c, c.Key(Charge));
    FindAfter(w.book, c, c.Key(Refund));
    if ChargeOp(w.book, c).1.Ok? && a.idem !in w.requests.index {
      ReserveLeavesNoOrphan(w, a, curve);
    }
  }

  lemma ReserveLeavesNoOrphan(w: World, a: PrepareArgs, curve: nat)
    requires MoneyOf(w) && FreshId(w, a.newId) && a.idem !in w.requests.index
    requires ChargeOp(w.book, SignArgs(a.idem, a.newId, w.price)).1.Ok?
    ensures !Orphan(Reserve(Inserted(w, a, curve), a).0, a.idem.network, a.newId)
  {
    var c, w1 := SignArgs(a.idem, a.newId, w.price), Inserted(w, a, curve);
    ReserveShape(w1, a);
    FreshIdFindsNothing(w, a.newId);
    FindAfter(w.book, c, c.Key(Charge));
    FindAfter(w.book, c, c.Key(Refund));
    FindAfter(w1.book, c, c.Key(Refund));
    InsertedMoney(w, a, curve);
    ChargeThenRefundOk(w.book, w1.book, c);
  }

  lemma ChargeThenRefundOk(b: Book, b1: Book, c: OpArgs)
    requires BookInv(b) && Find(b.entries, c.Key(Charge)).None? && Find(b.entries, c.Key(Refund)).None?
    requires ChargeOp(b, c).1.Ok? && b1 == ChargeOp(b, c).0
    ensures RefundOp(b1, c).1.Ok?
  {
    ChargeKeeps(b, c);
    FindAfter(b, c, c.Key(Charge));
    RefundExactly(b1, c);
  }

  /** A prepare turned away for want of a presign leaves requests and balances as they were. */
  lemma PoolEmptyIsFree(w: World, a: PrepareArgs)
    requires MoneyOf(w) && FreshId(w, a.newId) && Account(a.idem.user, a.idem.network) in w.book.accounts
    requires Prepare(w, a).1 == Err(PoolEmpty)
    ensures Prepare(w, a).0.requests == w.requests && Prepare(w, a).0.pool == w.pool
    ensures Prepare(w, a).0.book.accounts == w.book.accounts
  {
    FreshIdFindsNothing(w, a.newId);
    InsertThenDelete(w.requests, a.newId, FreshRow(a, a.dwallet.curve));
    RefundUndoesCharge(w.book, SignArgs(a.idem, a.newId, w.price));
  }

  // ---------------------------------------------------------------------------
  // What never changes back
  // ---------------------------------------------------------------------------

  /** The row lives on under the same key, keeps its link, and once settled never changes. */
  ghost predicate Persists(w: World, w': World, r: RequestId)
    requires r in w.requests.rows
  {
    && r in w'.requests.rows
    && var row, row' := w.requests.rows[r], w'.requests.rows[r];
       && row'.idem == row.idem && row'.curve == row.curve && row'.algorithm == row.algorithm
       && (row.presign.Some? ==> row'.presign == row.presign)
       && (row.status == Completed || row.status == Unsuccessful ==> row' == row)
       && (row.status != SignStatus.Prepared ==> row'.status != SignStatus.Prepared)
  }

  ghost predicate CapsPersist(w: World, w': World) {
    forall p :: p in w.pool ==> p in w'.pool && w'.pool[p].cap == w.pool[p].cap && w'.pool[p].bucket == w.pool[p].bucket
  }

  lemma PreparePersists(w: World, a: PrepareArgs, r: RequestId)
    requires r in w.requests.rows && a.newId !in w.requests.rows
    ensures Persists(w, Prepare(w, a).0, r)
  {
    if a.dwallet.Active? && Linked(w, a.idem).None? && a.idem !in w.requests.index {
      InsertThenDelete(w.requests, a.newId, FreshRow(a, a.dwallet.curve));
      ReserveShape(Inserted(w, a, a.dwallet.curve), a);
    }
  }

  lemma StepPersists(w: World, e: Event, r: RequestId)
    requires JobsOk(w.jobs, w.requests.rows) && r in w.requests.rows && Possible(w, e)
    ensures Persists(w, Next(w, e), r)
  {
    match e
    case PrepareSign(a) => PreparePersists(w, a, r);
    case Run(s, o, fate, signId) => ExecutedPersists(w, s, o, fate, signId, r);
    case Poll(s, completed) => PolledPersists(w, s, completed, r);
    case Begin(s, dwallet) => BegunPersists(w, s, dwallet, r);
    case Expire(s) => ExpiredPersists(w, s, r);
    case _ =>
  }

  lemma BegunPersists(w: World, s: RequestId, dwallet: DwalletRow, r: RequestId)
    requires r in w.requests.rows
    ensures Persists(w, StartJob(w, s, dwallet), r)
  {
  }

  lemma ExpiredPersists(w: World, s: RequestId, r: RequestId)
    requires r in w.requests.rows
    ensures Persists(w, ExpirePrepared(w, s), r)
  {
  }

  lemma ExecutedPersists(w: World, s: RequestId, o: TxExecutor.Observation, fate: TxExecutor.Fate, signId: bool, r: RequestId)
    requires JobsOk(w.jobs, w.requests.rows) && r in w.requests.rows && Possible(w, Run(s, o, fate, signId))
    ensures Persists(w, FinishExecute(w, s, o, fate, signId), r)
  {
    if !TxExecutor.Execute(o).Done? || !signId { FailedRunShape(w, s, o, fate, signId); }
  }

  lemma PolledPersists(w: World, s: RequestId, completed: bool, r: RequestId)
    requires JobsOk(w.jobs, w.requests.rows) && r in w.requests.rows && Possible(w, Poll(s, completed))
    ensures Persists(w, FinishPolling(w, s, completed), r)
  {
  }

  lemma ReserveCapsPersist(w: World, a: PrepareArgs)
    requires a.newId in w.requests.rows
    ensures CapsPersist(w, Reserve(w, a).0)
  {
  }

  lemma PrepareCapsPersist(w: World, a: PrepareArgs)
    ensures CapsPersist(w, Prepare(w, a).0)
  {
    if a.dwallet.Active? && Linked(w, a.idem).None? && a.idem !in w.requests.index {
      ReserveCapsPersist(Inserted(w, a, a.dwallet.curve), a);
    }
  }

  lemma StepCapsPersist(w: World, e: Event)
    requires Possible(w, e)
    ensures CapsPersist(w, Next(w, e))
  {
    match e
    case PrepareSign(a) => PrepareCapsPersist(w, a);
    case Run(r, o, fate, signId) => if !TxExecutor.Execute(o).Done? || !signId { FailedRunShape(w, r, o, fate, signId); }
    case _ =>
  }

  ghost predicate Carries(w: World, w': World, r: RequestId) {
    (r in w.requests.rows ==> Persists(w, w', r)) && CapsPersist(w, w')
  }

  lemma EventCarries(ws: seq<World>, es: seq<Event>, k: nat, r: RequestId)
    requires IsRun(ws, es) && k < |es|
    ensures Carries(ws[k], ws[k + 1], r)
  {
    InvThroughout(ws, es, k);
    if r in ws[k].requests.rows { StepPersists(ws[k], es[k], r); }
    StepCapsPersist(ws[k], es[k]);
  }

  lemma {:induction false} PersistsAlong(ws: seq<World>, i: nat, j: nat, r: RequestId)
    requires i <= j < |ws| && r in ws[i].requests.rows
    requires forall k :: i <= k < j ==> Carries(ws[k], ws[k + 1], r)
    ensures Persists(ws[i], ws[j], r) && CapsPersist(ws[i], ws[j])
    decreases j - i
  {
    if i < j {
      PersistsAlong(ws, i, j - 1, r);
      assert Carries(ws[j - 1], ws[j - 1 + 1], r);
    }
  }

  lemma RunPersists(ws: seq<World>, es: seq<Event>, i: nat, j: nat, r: RequestId)
    requires IsRun(ws, es) && i <= j < |ws| && r in ws[i].requests.rows
    ensures Persists(ws[i], ws[j], r) && CapsPersist(ws[i], ws[j])
  {
    forall k | i <= k < j ensures Carries(ws[k], ws[k + 1], r) { EventCarries(ws, es, k, r); }
    PersistsAlong(ws, i, j, r);
  }

  /** Completed and failed requests stay exactly as they are for the rest of the run. */
  lemma SettledForever(ws: seq<World>, es: seq<Event>, i: nat, j: nat, r: RequestId)
    requires IsRun(ws, es) && i <= j < |ws| && r in ws[i].requests.rows
    requires ws[i].requests.rows[r].status == Completed || ws[i].requests.rows[r].status == Unsuccessful
    ensures r in ws[j].requests.rows && ws[j].requests.rows[r] == ws[i].requests.rows[r]
  {
    RunPersists(ws, es, i, j, r);
  }

  /** The pool as it was, but for presigns with a dead cap that are now failed. */
  ghost predicate QuarantinesOnly(w: World, pool': Pool) {
    && pool'.Keys == w.pool.Keys
    && forall q :: q in w.pool ==>
         pool'[q] == w.pool[q] || (!w.chain.Alive(w.pool[q].cap) && pool'[q] == w.pool[q].(status := Failed))
  }

  /**
   * Once a key has its presign, preparing it again at any later time charges nothing, claims
   * nothing, touches no request, and if it answers it answers the same request and cap.
   */
  lemma PrepareIsIdempotent(ws: seq<World>, es: seq<Event>, i: nat, j: nat, r: RequestId, p: PresignId, a: PrepareArgs)
    requires IsRun(ws, es) && i <= j < |ws|
    requires r in ws[i].requests.rows && ws[i].requests.rows[r].presign == Some(p) && ws[i].requests.rows[r].idem == a.idem
    ensures p in ws[i].pool
    ensures Prepare(ws[j], a).0 == ws[j].(pool := Prepare(ws[j], a).0.pool)
    ensures QuarantinesOnly(ws[j], Prepare(ws[j], a).0.pool)
    ensures Prepare(ws[j], a).1.Ok? ==>
              Prepare(ws[j], a) == (ws[j], Ok(PreparedResult(r, ws[i].pool[p].cap, true)))
  {
    InvThroughout(ws, es, i);
    LinkedIs(ws[i], r, p, a.idem);
    InvThroughout(ws, es, j);
    RunPersists(ws, es, i, j, r);
    LinkedIs(ws[j], r, p, a.idem);
    PrepareAgain(ws[j], r, p, a);
  }

  lemma LinkedIs(w: World, r: RequestId, p: PresignId, idem: IdemKey)
    requires CoreOf(w) && r in w.requests.rows && w.requests.rows[r].presign == Some(p) && w.requests.rows[r].idem == idem
    ensures p in w.pool && idem in w.requests.index && w.requests.index[idem] == r && Linked(w, idem) == Some(p)
  {
  }

  /** Preparing a linked key at most moves presigns with a dead cap to failed. */
  lemma PrepareAgain(w: World, r: RequestId, p: PresignId, a: PrepareArgs)
    requires p in w.pool && a.idem in w.requests.index && w.requests.index[a.idem] == r && Linked(w, a.idem) == Some(p)
    ensures Prepare(w, a).0 == w.(pool := Prepare(w, a).0.pool)
    ensures QuarantinesOnly(w, Prepare(w, a).0.pool)
    ensures Prepare(w, a).1.Ok? ==> Prepare(w, a) == (w, Ok(PreparedResult(r, w.pool[p].cap, true)))
  {
  }

  /** A presign just claimed is never found missing: only a retried key can answer CapGone. */
  lemma FreshClaimIsNeverGone(w: World, a: PrepareArgs)
    requires CoreOf(w) && a.newId !in w.requests.rows && Linked(w, a.idem).None?
    ensures Prepare(w, a).1 != Err(CapGone)
  {
    if a.pick.Some? && a.pick.value in w.pool && w.pool[a.pick.value].status == Ready {
      assert Untouched(w.chain, w.pool[a.pick.value].cap);
    }
  }

  // ---------------------------------------------------------------------------
  // Each request is enqueued at most once
  // ---------------------------------------------------------------------------

  ghost predicate SentOk(w: World) {
    && (forall i :: 0 <= i < |w.sent| ==> w.sent[i] in w.requests.rows && w.requests.rows[w.sent[i]].status != SignStatus.Prepared)
    && (forall i, j :: 0 <= i < j < |w.sent| ==> w.sent[i] != w.sent[j])
  }

  lemma StepSent(w: World, e: Event)
    requires JobsOk(w.jobs, w.requests.rows) && SentOk(w) && Possible(w, e)
    ensures SentOk(Next(w, e))
  {
    forall i | 0 <= i < |w.sent| ensures Persists(w, Next(w, e), w.sent[i]) {
      StepPersists(w, e, w.sent[i]);
    }
    SentGrows(w, e);
  }

  lemma SentGrows(w: World, e: Event)
    requires Possible(w, e)
    ensures Next(w, e).sent == w.sent ||
            (&& e.SubmitSign? && Next(w, e).sent == w.sent + [e.request] && e.request in w.requests.rows
             && w.requests.rows[e.request].status == SignStatus.Prepared
             && e.request in Next(w, e).requests.rows && Next(w, e).requests.rows[e.request].status == Queued)
  {
    if e.PrepareSign? && Linked(w, e.args.idem).None? && e.args.dwallet.Active? {
      assert Prepare(w, e.args).0.sent == w.sent;
    }
  }

  /** However often and however late a submit is retried, its job is enqueued once. */
  lemma {:induction false} EnqueuedOnce(ws: seq<World>, es: seq<Event>, i: nat)
    requires IsRun(ws, es) && i < |ws|
    ensures SentOk(ws[i])
  {
    if i > 0 {
      EnqueuedOnce(ws, es, i - 1);
      InvThroughout(ws, es, i - 1);
      StepSent(ws[i - 1], es[i - 1]);
    }
  }

  // ---------------------------------------------------------------------------
  // An orphaned charge stays orphaned
  // ---------------------------------------------------------------------------

  lemma FailedOrphan(w: World, r: RequestId, code: ErrorCode, n: Network, id: RequestId)
    requires Orphan(w, n, id)
    ensures Orphan(MarkFailed(w, r, code), n, id)
  {
    if r in w.requests.rows {
      var c := SignArgs(w.requests.rows[r].idem, r, w.price);
      FindAfter(w.book, c, OpKey(n, Sign, id, Charge));
      FindAfter(w.book, c, OpKey(n, Sign, id, Refund));
    }
  }

  lemma PreparedOrphan(w: World, a: PrepareArgs, n: Network, id: RequestId)
    requires Orphan(w, n, id) && a.newId != id
    ensures Orphan(Prepare(w, a).0, n, id)
  {
    if Linked(w, a.idem).None? && a.dwallet.Active? {
      var c := SignArgs(a.idem, a.newId, w.price);
      FindAfter(w.book, c, OpKey(n, Sign, id, Charge));
      FindAfter(w.book, c, OpKey(n, Sign, id, Refund));
      if a.idem !in w.requests.index && ChargeOp(w.book, c).1.Ok? {
        var w1 := Inserted(w, a, a.dwallet.curve);
        FindAfter(w1.book, c, OpKey(n, Sign, id, Charge));
        FindAfter(w1.book, c, OpKey(n, Sign, id, Refund));
        ReserveShape(w1, a);
      }
    }
  }

  lemma BilledOrphan(w: World, op: Op, n: Network, id: RequestId)
    requires Orphan(w, n, id) && (op.ChargeTx? || op.RefundTx? ==> op.args.opType != Sign)
    ensures Orphan(w.(book := Serial(w.book, op).0), n, id)
  {
    if op.ChargeTx? || op.RefundTx? {
      FindAfter(w.book, op.args, OpKey(n, Sign, id, Charge));
      FindAfter(w.book, op.args, OpKey(n, Sign, id, Refund));
    }
  }

  lemma ExecutedOrphan(w: World, r: RequestId, o: TxExecutor.Observation, fate: TxExecutor.Fate, signId: bool, n: Network, id: RequestId)
    requires Orphan(w, n, id) && Possible(w, Run(r, o, fate, signId))
    ensures Orphan(FinishExecute(w, r, o, fate, signId), n, id)
  {
    if !TxExecutor.Execute(o).Done? || !signId {
      FailedRunShape(w, r, o, fate, signId);
      forall w1: World, code | w1.requests == w.requests && w1.book == w.book ensures Orphan(MarkFailed(w1, r, code), n, id) {
        FailedOrphan(w1, r, code, n, id);
      }
    }
  }

  lemma StartedOrphan(w: World, r: RequestId, dwallet: DwalletRow, n: Network, id: RequestId)
    requires Orphan(w, n, id)
    ensures Orphan(StartJob(w, r, dwallet), n, id)
  {
    forall code ensures Orphan(MarkFailed(w, r, code), n, id) { FailedOrphan(w, r, code, n, id); }
  }

  lemma PolledOrphan(w: World, r: RequestId, completed: bool, n: Network, id: RequestId)
    requires Orphan(w, n, id) && Possible(w, Poll(r, completed))
    ensures Orphan(FinishPolling(w, r, completed), n, id)
  {
    var w1 := w.(pool := SetStatus(w.pool, w.jobs[r].presign, Used), jobs := w.jobs - {r});
    FailedOrphan(w1, r, CoordinatorTimeout, n, id);
  }

  lemma ExpiredOrphan(w: World, r: RequestId, n: Network, id: RequestId)
    requires Orphan(w, n, id)
    ensures Orphan(ExpirePrepared(w, r), n, id)
  {
    forall w1: World | w1.requests == w.requests && w1.book == w.book ensures Orphan(MarkFailed(w1, r, PrepareExpired), n, id) {
      FailedOrphan(w1, r, PrepareExpired, n, id);
    }
  }

  lemma FreshIsNoOrphan(w: World, n: Network, id: RequestId)
    requires Orphan(w, n, id)
    ensures !FreshId(w, id)
  {
    var charge := Find(w.book.entries, OpKey(n, Sign, id, Charge)).value;
    assert charge in w.book.entries;
  }

  lemma StepOrphan(w: World, e: Event, n: Network, id: RequestId)
    requires Orphan(w, n, id) && Possible(w, e)
    ensures Orphan(Next(w, e), n, id)
  {
    match e
    case PrepareSign(a) => FreshIsNoOrphan(w, n, id); PreparedOrphan(w, a, n, id);
    case Begin(r, dwallet) => StartedOrphan(w, r, dwallet, n, id);
    case Run(r, o, fate, signId) => ExecutedOrphan(w, r, o, fate, signId, n, id);
    case Poll(r, completed) => PolledOrphan(w, r, completed, n, id);
    case Expire(r) => ExpiredOrphan(w, r, n, id);
    case Bill(op) => BilledOrphan(w, op, n, id);
    case _ =>
  }

  /** A charge with neither row nor refund stays that way: no later event of any run refunds it. */
  lemma {:induction false} OrphansAreNeverRefunded(ws: seq<World>, es: seq<Event>, i: nat, j: nat, n: Network, id: RequestId)
    requires IsRun(ws, es) && i <= j < |ws| && Orphan(ws[i], n, id)
    ensures Orphan(ws[j], n, id)
    decreases j - i
  {
    if i < j {
      OrphansAreNeverRefunded(ws, es, i, j - 1, n, id);
      StepOrphan(ws[j - 1], es[j - 1], n, id);
    }
  }
}
