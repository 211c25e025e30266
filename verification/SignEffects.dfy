/**
 * What each call of the sign pipeline does, read off the tables before and after: which rows it
 * writes and how, what it answers, and that it leaves the rest alone.
 */
module SignEffects {
  import opened Common
  import opened Ledger
  import opened SignPipeline
  import opened SignInvariant
  import opened SignRuns
  import opened SignTheorems
  import TxExecutor

  // ---------------------------------------------------------------------------
  // Failing a request
  // ---------------------------------------------------------------------------

  /** One refund of the price is in the ledger for the request, and was paid once: now, or before. */
  ghost predicate Refunded(b: Book, b': Book, idem: IdemKey, r: RequestId, price: int) {
    var holder, refund := Account(idem.user, idem.network), OpKey(idem.network, Sign, r, Refund);
    && b'.deposits == b.deposits
    && Find(b'.entries, refund) == Some(Entry(idem.user, refund, price))
    && if Find(b.entries, refund).Some? then b' == b
       else
         && holder in b.accounts
         && b'.entries == b.entries + [Entry(idem.user, refund, price)]
         && b'.accounts == b.accounts[holder := b.accounts[holder] + price]
  }

  /** The row is failed with this code and refunded; no other row is touched. */
  ghost predicate Fails(w: World, w': World, r: RequestId, code: ErrorCode) {
    && r in w.requests.rows
    && w'.requests.index == w.requests.index
    && w'.requests.rows == w.requests.rows[r := w.requests.rows[r].(status := Unsuccessful, error := Some(code))]
    && Refunded(w.book, w'.book, w.requests.rows[r].idem, r, w.price)
    && w'.price == w.price && w'.sent == w.sent
  }

  lemma RefundOnce(b: Book, r: RequestId, row: Request, price: int)
    requires BookInv(b) && RowBilled(b.entries, r, row, price)
    ensures Refunded(b, RefundOp(b, SignArgs(row.idem, r, price)).0, row.idem, r, price)
  {
    RefundDoes(b, SignArgs(row.idem, r, price));
    HolderExists(b, r, row, price);
    SameAccount(b.accounts, Account(row.idem.user, row.idem.network));
    FindAppend(b.entries, Entry(row.idem.user, RefundKey(row.idem, r), price), RefundKey(row.idem, r));
  }

  lemma HolderExists(b: Book, r: RequestId, row: Request, price: int)
    requires Balanced(b) && RowBilled(b.entries, r, row, price)
    ensures Account(row.idem.user, row.idem.network) in b.accounts
  {
    assert Find(b.entries, ChargeKey(row.idem, r)).value in b.entries;
  }

  lemma MarkFailedDoes(w: World, r: RequestId, code: ErrorCode)
    requires MoneyOf(w) && r in w.requests.rows
    ensures Fails(w, MarkFailed(w, r, code), r, code)
    ensures MarkFailed(w, r, code).pool == w.pool && MarkFailed(w, r, code).chain == w.chain && MarkFailed(w, r, code).jobs == w.jobs
  {
    assert RowBilled(w.book.entries, r, w.requests.rows[r], w.price);
    RefundOnce(w.book, r, w.requests.rows[r], w.price);
  }

  // ---------------------------------------------------------------------------
  // Prepare
  // ---------------------------------------------------------------------------

  /** The row picked is ready, and of the network, curve, algorithm and key the request needs. */
  predicate Fits(pool: Pool, a: PrepareArgs, curve: nat) {
    && a.nek.Some? && a.pick.Some? && a.pick.value in pool
    && var x := pool[a.pick.value];
       && x.status == Ready
       && x.bucket.network == a.idem.network && x.bucket.curve == curve
       && x.bucket.algorithm == a.algorithm && x.bucket.nek == a.nek.value
  }

  /** Nothing stands in the way of a new row: a new key, an active dwallet, and funds. */
  ghost predicate Admitted(w: World, a: PrepareArgs) {
    && a.idem !in w.requests.index
    && a.dwallet.Active?
    && Account(a.idem.user, a.idem.network) in w.book.accounts
    && 0 < w.price <= w.book.accounts[Account(a.idem.user, a.idem.network)]
  }

  /** The charge a new request pays. */
  ghost predicate Charged(b: Book, b': Book, a: PrepareArgs, price: int) {
    var holder, key := Account(a.idem.user, a.idem.network), OpKey(a.idem.network, Sign, a.newId, Charge);
    && holder in b.accounts
    && b'.deposits == b.deposits
    && b'.entries == b.entries + [Entry(a.idem.user, key, -price)]
    && b'.accounts == b.accounts[holder := b.accounts[holder] - price]
  }

  /** The row a new request starts from. */
  function NewRow(a: PrepareArgs, presign: Option<PresignId>): Request
    requires a.dwallet.Active?
  {
    Request(a.idem, a.dwallet.curve, a.algorithm, presign, SignStatus.Prepared, None, false)
  }

  lemma AdmittedCharge(w: World, a: PrepareArgs)
    requires MoneyOf(w) && FreshId(w, a.newId) && Admitted(w, a)
    ensures Charged(w.book, ChargeOp(w.book, SignArgs(a.idem, a.newId, w.price)).0, a, w.price)
    ensures ChargeOp(w.book, SignArgs(a.idem, a.newId, w.price)).1.Ok?
  {
    FreshIdFindsNothing(w, a.newId);
    ChargeDoes(w.book, SignArgs(a.idem, a.newId, w.price));
  }

  /**
   * An admitted prepare whose picked row fits: one charge, one row that links it, and the row
   * allocated to the request. The answer names the request and the presign's own cap.
   */
  lemma PrepareLinks(w: World, a: PrepareArgs)
    requires MoneyOf(w) && FreshId(w, a.newId) && Admitted(w, a) && Fits(w.pool, a, a.dwallet.curve)
    ensures var (w', answer) := Prepare(w, a);
            var p := a.pick.value;
            && Charged(w.book, w'.book, a, w.price)
            && w'.requests.rows == w.requests.rows[a.newId := NewRow(a, Some(p))]
            && w'.requests.index == w.requests.index[a.idem := a.newId]
            && w'.chain == w.chain && w'.jobs == w.jobs && w'.sent == w.sent && w'.price == w.price
            && (w.chain.Alive(w.pool[p].cap) ==>
                  && w'.pool == w.pool[p := w.pool[p].(status := Allocated, owner := Some(a.newId))]
                  && answer == if a.reachable then Ok(PreparedResult(a.newId, w.pool[p].cap, false)) else Err(BytesUnavailable))
            && (!w.chain.Alive(w.pool[p].cap) ==> answer == Err(CapGone))
  {
    AdmittedCharge(w, a);
    LinkShape(w, a);
  }

  lemma LinkShape(w: World, a: PrepareArgs)
    requires Admitted(w, a) && Fits(w.pool, a, a.dwallet.curve) && ChargeOp(w.book, SignArgs(a.idem, a.newId, w.price)).1.Ok?
    ensures var p := a.pick.value;
            Prepare(w, a) ==
              Fetch(w.(book := ChargeOp(w.book, SignArgs(a.idem, a.newId, w.price)).0,
                       requests := Requests(w.requests.rows[a.newId := NewRow(a, Some(p))], w.requests.index[a.idem := a.newId]),
                       pool := w.pool[p := w.pool[p].(status := Allocated, owner := Some(a.newId))]),
                    PreparedResult(a.newId, w.pool[p].cap, false), a.reachable)
  {
    assert w.pool[a.pick.value].bucket == Bucket(a.idem.network, a.dwallet.curve, a.algorithm, a.nek.value);
    assert w.requests.rows[a.newId := NewRow(a, None)][a.newId := NewRow(a, a.pick)] == w.requests.rows[a.newId := NewRow(a, a.pick)];
  }

  /**
   * An admitted prepare whose picked row does not fit, or that picked none: pool empty, and
   * requests, presigns and balances as before; charge and refund cancel out in the ledger.
   */
  lemma PrepareWithdraws(w: World, a: PrepareArgs)
    requires MoneyOf(w) && FreshId(w, a.newId) && Admitted(w, a) && a.nek.Some? && !Fits(w.pool, a, a.dwallet.curve)
    ensures var (w', answer) := Prepare(w, a);
            var charge, refund := OpKey(a.idem.network, Sign, a.newId, Charge), OpKey(a.idem.network, Sign, a.newId, Refund);
            var price: int := w.price;
            && answer == Err(PoolEmpty)
            && w'.requests == w.requests && w'.pool == w.pool
            && w'.chain == w.chain && w'.jobs == w.jobs && w'.sent == w.sent && w'.price == w.price
            && w'.book.accounts == w.book.accounts && w'.book.deposits == w.book.deposits
            && w'.book.entries == w.book.entries + [Entry(a.idem.user, charge, -price)] + [Entry(a.idem.user, refund, price)]
  {
    AdmittedCharge(w, a);
    PoolEmptyShape(w, a);
    PoolEmptyIsFree(w, a);
    WithdrawnEntries(w, a);
  }

  lemma PoolEmptyShape(w: World, a: PrepareArgs)
    requires Admitted(w, a) && a.nek.Some? && !Fits(w.pool, a, a.dwallet.curve)
    requires ChargeOp(w.book, SignArgs(a.idem, a.newId, w.price)).1.Ok?
    ensures Prepare(w, a) == (Withdraw(Inserted(w, a, a.dwallet.curve), a), Err(PoolEmpty))
  {
  }

  lemma WithdrawnEntries(w: World, a: PrepareArgs)
    requires MoneyOf(w) && FreshId(w, a.newId) && Admitted(w, a)
    ensures var b := ChargeOp(w.book, SignArgs(a.idem, a.newId, w.price)).0;
            var b' := RefundOp(b, SignArgs(a.idem, a.newId, w.price)).0;
            b'.deposits == b.deposits && b'.entries == b.entries + [Entry(a.idem.user, OpKey(a.idem.network, Sign, a.newId, Refund), w.price)]
  {
    var c := SignArgs(a.idem, a.newId, w.price);
    AdmittedCharge(w, a);
    FreshIdFindsNothing(w, a.newId);
    ChargeKeeps(w.book, c);
    FindAfterCharge(w.book, c, c.Key(Charge));
    FindAfterCharge(w.book, c, c.Key(Refund));
    ChargeDoes(w.book, c);
    RefundDoes(ChargeOp(w.book, c).0, c);
  }

  /** A key lookup that throws leaves the charge and a row without a presign. */
  lemma PrepareHalts(w: World, a: PrepareArgs)
    requires MoneyOf(w) && FreshId(w, a.newId) && Admitted(w, a) && a.nek.None?
    ensures var (w', answer) := Prepare(w, a);
            && answer == Err(NekUnavailable)
            && Charged(w.book, w'.book, a, w.price)
            && w' == w.(book := w'.book,
                        requests := Requests(w.requests.rows[a.newId := NewRow(a, None)], w.requests.index[a.idem := a.newId]))
  {
    AdmittedCharge(w, a);
  }

  /** A prepare that is not admitted on a key without a presign writes no request and no presign, and says why. */
  lemma PrepareRefuses(w: World, a: PrepareArgs)
    requires FreshId(w, a.newId) && Linked(w, a.idem).None? && !Admitted(w, a)
    ensures var (w', answer) := Prepare(w, a);
            var holder := Account(a.idem.user, a.idem.network);
            && w' == w.(book := w'.book)
            && answer ==
                 (if a.dwallet.NotFound? then Err(DwalletNotFound)
                  else if a.dwallet.Inactive? then Err(DwalletNotActive)
                  else if w.price == 0 then Err(PrepareError.Billing(BadChargeAmount))
                  else if Balance(w.book, holder) < w.price then Err(PrepareError.Billing(InsufficientCredits))
                  else Err(DuplicateKey))
            && (answer != Err(DuplicateKey) ==> w'.book.entries == w.book.entries)
  {
    FreshIdFindsNothing(w, a.newId);
    ChargeDoes(w.book, SignArgs(a.idem, a.newId, w.price));
  }

  /** A retried key answers its own request and cap, when the cap is alive and can be read. */
  lemma PrepareRetries(w: World, a: PrepareArgs, r: RequestId, p: PresignId)
    requires CoreOf(w) && r in w.requests.rows && w.requests.rows[r].idem == a.idem && w.requests.rows[r].presign == Some(p)
    ensures p in w.pool
    ensures w.chain.Alive(w.pool[p].cap) ==>
              Prepare(w, a) == (w, if a.reachable then Ok(PreparedResult(r, w.pool[p].cap, true)) else Err(BytesUnavailable))
    ensures !w.chain.Alive(w.pool[p].cap) ==>
              Prepare(w, a) == (w.(pool := w.pool[p := w.pool[p].(status := Failed)]), Err(CapGone))
  {
    LinkedIs(w, r, p, a.idem);
    QuarantineHits(w.pool, w.chain, p);
  }

  /** A quarantine fails the one row with the cap. */
  lemma QuarantineHits(pool: Pool, chain: Chain, p: PresignId)
    requires PoolOk(pool, chain) && p in pool
    ensures Quarantine(pool, pool[p].cap) == pool[p := pool[p].(status := Failed)]
  {
  }

  // ---------------------------------------------------------------------------
  // Every link is of the request's own kind
  // ---------------------------------------------------------------------------

  /** Each linked presign has its request's network, curve and algorithm. */
  ghost predicate LinksMatch(rows: Rows, pool: Pool) {
    forall r :: r in rows && rows[r].presign.Some? && rows[r].presign.value in pool ==>
      && pool[rows[r].presign.value].bucket.network == rows[r].idem.network
      && pool[rows[r].presign.value].bucket.curve == rows[r].curve
      && pool[rows[r].presign.value].bucket.algorithm == rows[r].algorithm
  }

  /** Links that an event makes are those of the request it prepares. */
  ghost predicate OldLinks(w: World, w': World, newest: Option<RequestId>) {
    forall r :: r in w'.requests.rows && w'.requests.rows[r].presign.Some? && newest != Some(r) ==>
      r in w.requests.rows && w.requests.rows[r].presign == w'.requests.rows[r].presign
  }

  lemma PrepareLinksOwn(w: World, a: PrepareArgs)
    ensures OldLinks(w, Prepare(w, a).0, Some(a.newId))
  {
    if Linked(w, a.idem).None? && a.dwallet.Active? && a.idem !in w.requests.index {
      ReserveShape(Inserted(w, a, a.dwallet.curve), a);
    }
  }

  lemma StepLinks(w: World, e: Event)
    requires Possible(w, e)
    ensures OldLinks(w, Next(w, e), if e.PrepareSign? then Some(e.args.newId) else None)
  {
    match e
    case PrepareSign(a) => PrepareLinksOwn(w, a);
    case Begin(r, dwallet) => BeginLinks(w, r, dwallet);
    case Run(r, o, fate, signId) => RunLinks(w, r, o, fate, signId);
    case Poll(r, completed) => PollLinks(w, r, completed);
    case Expire(r) => ExpireLinks(w, r);
    case _ =>
  }

  lemma BeginLinks(w: World, r: RequestId, dwallet: DwalletRow)
    ensures OldLinks(w, StartJob(w, r, dwallet), None)
  {
  }

  lemma RunLinks(w: World, r: RequestId, o: TxExecutor.Observation, fate: TxExecutor.Fate, signId: bool)
    requires Possible(w, Run(r, o, fate, signId))
    ensures OldLinks(w, FinishExecute(w, r, o, fate, signId), None)
  {
    if !TxExecutor.Execute(o).Done? || !signId { FailedRunShape(w, r, o, fate, signId); }
  }

  lemma PollLinks(w: World, r: RequestId, completed: bool)
    requires Possible(w, Poll(r, completed))
    ensures OldLinks(w, FinishPolling(w, r, completed), None)
  {
  }

  lemma ExpireLinks(w: World, r: RequestId)
    ensures OldLinks(w, ExpirePrepared(w, r), None)
  {
  }

  /** A row that a prepare leaves linked under its new id has a presign of its own kind. */
  lemma FreshLinkMatches(w: World, a: PrepareArgs)
    requires a.newId !in w.requests.rows
    ensures var w' := Prepare(w, a).0;
            a.newId in w'.requests.rows && w'.requests.rows[a.newId].presign.Some? ==>
              && var row := w'.requests.rows[a.newId];
                 && row.presign == a.pick && a.dwallet.Active? && Fits(w.pool, a, a.dwallet.curve)
                 && row.idem == a.idem && row.curve == a.dwallet.curve && row.algorithm == a.algorithm
  {
    if Linked(w, a.idem).None? && a.dwallet.Active? && a.idem !in w.requests.index {
      FreshReserveMatches(Inserted(w, a, a.dwallet.curve), a);
    }
  }

  lemma FreshReserveMatches(w: World, a: PrepareArgs)
    requires a.dwallet.Active? && a.newId in w.requests.rows && w.requests.rows[a.newId] == NewRow(a, None)
    ensures var w' := Reserve(w, a).0;
            a.newId in w'.requests.rows && w'.requests.rows[a.newId].presign.Some? ==>
              && Fits(w.pool, a, a.dwallet.curve)
              && w'.requests.rows[a.newId] == NewRow(a, a.pick)
  {
  }

  lemma StepMatches(w: World, e: Event)
    requires CoreOf(w) && LinksMatch(w.requests.rows, w.pool) && Possible(w, e)
    ensures LinksMatch(Next(w, e).requests.rows, Next(w, e).pool)
  {
    var w' := Next(w, e);
    StepLinks(w, e);
    StepCapsPersist(w, e);
    if e.PrepareSign? { FreshLinkMatches(w, e.args); }
    forall r | r in w'.requests.rows && w'.requests.rows[r].presign.Some? && w'.requests.rows[r].presign.value in w'.pool
      ensures var x := w'.pool[w'.requests.rows[r].presign.value].bucket;
              && x.network == w'.requests.rows[r].idem.network && x.curve == w'.requests.rows[r].curve
              && x.algorithm == w'.requests.rows[r].algorithm
    {
      if r in w.requests.rows { StepPersists(w, e, r); }
    }
  }

  /** In every run each presign is linked only by requests of its network, curve and algorithm. */
  lemma {:induction false} LinksMatchThroughout(ws: seq<World>, es: seq<Event>, i: nat)
    requires IsRun(ws, es) && i < |ws|
    ensures LinksMatch(ws[i].requests.rows, ws[i].pool)
  {
    if i > 0 {
      LinksMatchThroughout(ws, es, i - 1);
      InvThroughout(ws, es, i - 1);
      StepMatches(ws[i - 1], es[i - 1]);
    }
  }

  // ---------------------------------------------------------------------------
  // Submit
  // ---------------------------------------------------------------------------

  /** Anyone but the owner, on any other network, or for a row that is not there: no write, not found. */
  lemma SubmitByAnotherIsRefused(w: World, user: UserId, network: Network, r: RequestId)
    requires r in w.requests.rows ==> w.requests.rows[r].idem.user != user || w.requests.rows[r].idem.network != network
    ensures Submit(w, user, network, r) == (w, Err(SignNotFound))
  {
  }

  /** For the owner: the answer by status, and the one write there is. */
  lemma SubmitDoes(w: World, r: RequestId)
    requires r in w.requests.rows
    ensures var row := w.requests.rows[r];
            var (w', answer) := Submit(w, row.idem.user, row.idem.network, r);
            && (row.status == Queued || row.status == Submitted || row.status == Completed ==> answer == Ok(row.status))
            && (row.status == Unsuccessful ==> answer == Err(SignBadState))
            && (row.status == SignStatus.Prepared && row.presign.None? ==> answer == Err(SignNoPresign))
            && (row.status == SignStatus.Prepared && row.presign.Some? ==>
                  && answer == Ok(Queued)
                  && w'.requests.rows == w.requests.rows[r := row.(status := Queued, signed := true)]
                  && w'.sent == w.sent + [r])
            && (w' == w <==> !(row.status == SignStatus.Prepared && row.presign.Some?))
            && w' == w.(requests := Requests(w'.requests.rows, w.requests.index), sent := w'.sent)
  {
    assert |w.sent + [r]| != |w.sent|;
  }

  // ---------------------------------------------------------------------------
  // The sign job
  // ---------------------------------------------------------------------------

  /** Why a job fails before its transaction is built, if it does. */
  function EarlyFailure(w: World, row: Request, dwallet: DwalletRow): Option<ErrorCode> {
    if row.presign.None? then Some(NoPresign)
    else if !row.signed then Some(MissingInputs)
    else if row.presign.value !in w.pool then Some(PresignGone)
    else if dwallet == Vanished then Some(DwalletGone)
    else None
  }

  /** A job that starts: dropped unless queued, failed with its code and refunded, or handed to the executor with its own presign. */
  lemma BeginDoes(w: World, r: RequestId, dwallet: DwalletRow)
    requires MoneyOf(w)
    ensures var w' := StartJob(w, r, dwallet);
            && w'.pool == w.pool && w'.chain == w.chain
            && (r !in w.requests.rows || w.requests.rows[r].status != Queued ==> w' == w)
            && (r in w.requests.rows && w.requests.rows[r].status == Queued ==>
                  var row := w.requests.rows[r];
                  match EarlyFailure(w, row, dwallet)
                  case Some(code) => Fails(w, w', r, code) && w'.jobs == w.jobs
                  case None => w' == if dwallet == Unlinked then w else w.(jobs := w.jobs[r := Executing(row.presign.value)]))
  {
    if r in w.requests.rows && w.requests.rows[r].status == Queued {
      BeginShape(w, r, dwallet);
      var failure := EarlyFailure(w, w.requests.rows[r], dwallet);
      if failure.Some? { MarkFailedDoes(w, r, failure.value); }
    }
  }

  lemma BeginShape(w: World, r: RequestId, dwallet: DwalletRow)
    requires r in w.requests.rows && w.requests.rows[r].status == Queued
    ensures var row := w.requests.rows[r];
            StartJob(w, r, dwallet) ==
              match EarlyFailure(w, row, dwallet)
              case Some(code) => MarkFailed(w, r, code)
              case None => if dwallet == Unlinked then w else w.(jobs := w.jobs[r := Executing(row.presign.value)])
  {
  }

  /** What the transaction's fate makes of the chain: a burned cap, a cap that may yet burn, or nothing. */
  ghost predicate ChainDid(chain: Chain, chain': Chain, r: RequestId, cap: CapId, fate: TxExecutor.Fate) {
    && chain'.minted == chain.minted
    && chain'.burnedBy == (if fate == TxExecutor.Executed then chain.burnedBy[cap := r] else chain.burnedBy)
    && chain'.inFlight == (if fate == TxExecutor.InFlight then chain.inFlight[r := cap] else chain.inFlight)
  }

  lemma FateDoes(chain: Chain, r: RequestId, cap: CapId, fate: TxExecutor.Fate)
    ensures ChainDid(chain, ChainAfter(chain, r, cap, fate), r, cap, fate)
  {
  }

  /** A return with a sign id: the row is submitted, its presign consumed, its cap burned, and the job waits; no money moves. */
  lemma RunSubmits(w: World, r: RequestId, o: TxExecutor.Observation, fate: TxExecutor.Fate)
    requires Possible(w, Run(r, o, fate, true)) && TxExecutor.Execute(o).Done? && r in w.requests.rows
    ensures var p := w.jobs[r].presign;
            FinishExecute(w, r, o, fate, true) ==
              w.(requests := Requests(w.requests.rows[r := w.requests.rows[r].(status := Submitted)], w.requests.index),
                 pool := w.pool[p := w.pool[p].(status := ConsumedPending)],
                 chain := w.chain.(burnedBy := w.chain.burnedBy[w.pool[p].cap := r]),
                 jobs := w.jobs[r := Polling(p)])
  {
    SubmittedRunShape(w, r, o, fate);
  }

  /**
   * Every other answer: the row fails with its code and is refunded, and the job is gone. The
   * presign is ready again without an owner after preflight or reverted; else it is used.
   */
  lemma RunFails(w: World, r: RequestId, o: TxExecutor.Observation, fate: TxExecutor.Fate, signId: bool)
    requires MoneyOf(w) && Possible(w, Run(r, o, fate, signId)) && r in w.requests.rows
    requires !TxExecutor.Execute(o).Done? || !signId
    ensures var w' := FinishExecute(w, r, o, fate, signId);
            var p, answer := w.jobs[r].presign, TxExecutor.Execute(o);
            var rollback := answer == TxExecutor.Failed(TxExecutor.Preflight) || answer == TxExecutor.Failed(TxExecutor.Reverted);
            && Fails(w, w', r, if answer.Done? then NoSignId else if rollback then SubmitFailed else SubmitUnknown)
            && w'.pool == w.pool[p := if rollback then w.pool[p].(status := Ready, owner := None) else w.pool[p].(status := Used)]
            && ChainDid(w.chain, w'.chain, r, w.pool[p].cap, fate) && w'.jobs == w.jobs - {r}
  {
    var p, answer := w.jobs[r].presign, TxExecutor.Execute(o);
    var rollback := TxExecutor.Rollbackable(answer);
    var w1 := w.(pool := w.pool[p := if rollback then w.pool[p].(status := Ready, owner := None) else w.pool[p].(status := Used)],
                 chain := ChainAfter(w.chain, r, w.pool[p].cap, fate), jobs := w.jobs - {r});
    FailedRunShape(w, r, o, fate, signId);
    FateDoes(w.chain, r, w.pool[p].cap, fate);
    MarkFailedDoes(w1, r, if answer.Done? then NoSignId else if rollback then SubmitFailed else SubmitUnknown);
  }

  /** The end of the wait: a signature completes its request and moves no money; a timeout fails and refunds it. The presign is used either way. */
  lemma PollDoes(w: World, r: RequestId, completed: bool)
    requires MoneyOf(w) && Possible(w, Poll(r, completed)) && r in w.requests.rows && w.jobs[r].presign in w.pool
    ensures var w' := FinishPolling(w, r, completed);
            var p := w.jobs[r].presign;
            && w'.pool == w.pool[p := w.pool[p].(status := Used)]
            && w'.chain == w.chain && w'.jobs == w.jobs - {r} && w'.sent == w.sent
            && (completed ==>
                  && w'.requests.rows == w.requests.rows[r := w.requests.rows[r].(status := Completed)]
                  && w'.requests.index == w.requests.index && w'.book == w.book)
            && (!completed ==> Fails(w, w', r, CoordinatorTimeout))
  {
    if !completed {
      MarkFailedDoes(w.(pool := SetStatus(w.pool, w.jobs[r].presign, Used), jobs := w.jobs - {r}), r, CoordinatorTimeout);
    }
  }

  /** In every run: from the poll of a submitted request on, it is completed, or failed and refunded, for good. */
  lemma PolledIsSettled(ws: seq<World>, es: seq<Event>, i: nat, j: nat, r: RequestId, completed: bool)
    requires IsRun(ws, es) && i < j < |ws| && es[i] == Poll(r, completed)
    ensures r in ws[i].requests.rows && r in ws[j].requests.rows
    ensures ws[i].requests.rows[r].status == Submitted
    ensures var link := ws[i].requests.rows[r].presign;
            && link.Some? && link.value in ws[i + 1].pool && ws[i + 1].pool[link.value].status == Used
            && ws[i + 1].pool[link.value].cap in ws[i + 1].chain.burnedBy
            && ws[i + 1].chain.burnedBy[ws[i + 1].pool[link.value].cap] == r
    ensures completed ==> ws[j].requests.rows[r] == ws[i].requests.rows[r].(status := Completed)
    ensures !completed ==>
              && ws[j].requests.rows[r] == ws[i].requests.rows[r].(status := Unsuccessful, error := Some(CoordinatorTimeout))
              && SumFor(ws[j].book.entries, RefundKey(ws[j].requests.rows[r].idem, r)) == ws[j].price
  {
    InvThroughout(ws, es, i);
    JobFacts(ws[i].pool, ws[i].requests, ws[i].chain, ws[i].jobs, r);
    PollDoes(ws[i], r, completed);
    assert ws[i + 1] == Next(ws[i], es[i]);
    SettledForever(ws, es, i + 1, j, r);
    NetCost(ws, es, j, r);
  }

  // ---------------------------------------------------------------------------
  // Sweeps, reconciliation and the pool
  // ---------------------------------------------------------------------------

  /** Expiry of a prepared row: failed and refunded, and its presign ready without an owner. Any other row is left alone. */
  lemma ExpireDoes(w: World, r: RequestId)
    requires Inv(w)
    ensures var w' := ExpirePrepared(w, r);
            if r in w.requests.rows && w.requests.rows[r].status == SignStatus.Prepared then
              && Fails(w, w', r, PrepareExpired)
              && w'.chain == w.chain && w'.jobs == w.jobs
              && match w.requests.rows[r].presign
                 case None => w'.pool == w.pool
                 case Some(p) => p in w.pool && w'.pool == w.pool[p := w.pool[p].(status := Ready, owner := None)]
            else w' == w
  {
    if r in w.requests.rows && w.requests.rows[r].status == SignStatus.Prepared {
      var link := w.requests.rows[r].presign;
      MarkFailedDoes(if link.Some? then w.(pool := RollbackToReady(w.pool, link.value)) else w, r, PrepareExpired);
    }
  }

  /** A sweep makes exactly the rescued rows ready and exactly the parked ones failed. */
  lemma SweepDoes(w: World, rescued: set<PresignId>, parked: set<PresignId>)
    requires Possible(w, SweepPresigns(rescued, parked))
    ensures var w' := Next(w, SweepPresigns(rescued, parked));
            && w' == w.(pool := w'.pool) && w'.pool.Keys == w.pool.Keys
            && forall p :: p in w.pool ==>
                 w'.pool[p] == if p in rescued then w.pool[p].(status := Ready, owner := None)
                               else if p in parked then w.pool[p].(status := Failed)
                               else w.pool[p]
  {
  }

  /** Reconciliation re-readies a presign exactly for a failed, unknown request whose presign is out of stock with a live cap. */
  lemma ReconcileDoes(w: World, r: RequestId, p: PresignId)
    requires r in w.requests.rows && w.requests.rows[r].presign == Some(p) && p in w.pool
    ensures Reconcile(w, r) ==
              if && w.requests.rows[r].status == Unsuccessful && w.requests.rows[r].error == Some(SubmitUnknown)
                 && (w.pool[p].status == Failed || w.pool[p].status == Used)
                 && w.pool[p].cap in w.chain.minted && w.pool[p].cap !in w.chain.burnedBy
              then w.(pool := w.pool[p := w.pool[p].(status := Ready, owner := None)])
              else w
  {
  }

  /** A tracked cap enters the pool once, pending and unowned, in the bucket the chain gives it; promotion makes it ready. */
  lemma TrackDoes(w: World, p: PresignId, c: CapId)
    requires Possible(w, Track(p, c))
    ensures var w' := Next(w, Track(p, c));
            if exists q :: q in w.pool && w.pool[q].cap == c then w' == w
            else w' == w.(pool := w.pool[p := Presign(c, w.chain.minted[c], Pending, None)])
    ensures p !in w.pool
  {
  }

  lemma PromoteDoes(w: World, p: PresignId)
    requires Possible(w, Promote(p))
    ensures Next(w, Promote(p)) == w.(pool := w.pool[p := w.pool[p].(status := Ready)])
  {
  }
}
