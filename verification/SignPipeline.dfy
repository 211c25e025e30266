/**
 * The sign pipeline as a transition system: presign pool, sign requests, billing book, queue
 * and running jobs, beside what the chain holds. One event is one service call on one row;
 * a sign job splits at its transaction and at its wait for the coordinator.
 */
module SignPipeline {
  import opened Common
  import opened Ledger
  import TxExecutor

  type PresignId = nat
  type RequestId = nat
  type CapId = nat

  /** What an allocation must match: network, curve, algorithm and network encryption key. */
  datatype Bucket = Bucket(network: Network, curve: nat, algorithm: nat, nek: nat)

  datatype PresignStatus = Pending | Ready | Allocated | ConsumedPending | Used | Failed

  datatype Presign = Presign(cap: CapId, bucket: Bucket, status: PresignStatus, owner: Option<RequestId>)

  type Pool = map<PresignId, Presign>

  datatype SignStatus = Prepared | Queued | Submitted | Completed | Unsuccessful

  datatype ErrorCode =
    | NoPresign
    | MissingInputs
    | PresignGone
    | DwalletGone
    | SubmitFailed
    | SubmitUnknown
    | NoSignId
    | CoordinatorTimeout
    | PrepareExpired

  /** The columns of the unique idempotency index. */
  datatype IdemKey = IdemKey(user: UserId, network: Network, key: string)

  datatype Request = Request(
    idem: IdemKey,
    curve: nat,
    algorithm: nat,
    presign: Option<PresignId>,
    status: SignStatus,
    error: Option<ErrorCode>,
    signed: bool)      // centralized signature and session id are on the row
  {
    /** A prepared or queued request still has a claim on its presign. */
    predicate Active() { status == Prepared || status == Queued }

    predicate Spent() { status == Submitted || status == Completed }
  }

  /** The request table with its unique index. */
  datatype Requests = Requests(rows: map<RequestId, Request>, index: map<IdemKey, RequestId>)

  /** Caps ever minted with their on-chain bucket, caps burned and by which request, and caps an unsettled transaction may yet burn. */
  datatype Chain = Chain(minted: map<CapId, Bucket>, burnedBy: map<CapId, RequestId>, inFlight: map<RequestId, CapId>)
  {
    predicate Alive(c: CapId) { c in minted && c !in burnedBy }
  }

  datatype Job = Executing(presign: PresignId) | Polling(presign: PresignId)

  datatype World = World(
    pool: Pool,
    requests: Requests,
    book: Book,
    chain: Chain,
    jobs: map<RequestId, Job>,
    sent: seq<RequestId>,     // sign.process jobs ever enqueued
    price: nat)

  function SignArgs(idem: IdemKey, id: RequestId, price: int): OpArgs {
    OpArgs(idem.user, idem.network, Sign, id, price)
  }

  // ---------------------------------------------------------------------------
  // Presign pool: one statement each
  // ---------------------------------------------------------------------------

  function SetStatus(pool: Pool, p: PresignId, status: PresignStatus): Pool {
    if p in pool then pool[p := pool[p].(status := status)] else pool
  }

  function RollbackToReady(pool: Pool, p: PresignId): Pool {
    if p in pool then pool[p := pool[p].(status := Ready, owner := None)] else pool
  }

  function Claim(pool: Pool, p: PresignId, r: RequestId): Pool
    requires p in pool
  {
    pool[p := pool[p].(status := Allocated, owner := Some(r))]
  }

  predicate Claimable(pool: Pool, p: PresignId, bucket: Bucket) {
    p in pool && pool[p].status == Ready && pool[p].bucket == bucket
  }

  /** fetchPresignBytes on a missing cap. */
  function Quarantine(pool: Pool, cap: CapId): Pool {
    map p | p in pool :: if pool[p].cap == cap then pool[p].(status := Failed) else pool[p]
  }

  function Sweep(pool: Pool, rescued: set<PresignId>, parked: set<PresignId>): Pool {
    map p | p in pool ::
      if p in rescued then pool[p].(status := Ready, owner := None)
      else if p in parked then pool[p].(status := Failed)
      else pool[p]
  }

  // ---------------------------------------------------------------------------
  // Sign requests
  // ---------------------------------------------------------------------------

  function SetRow(t: Requests, r: RequestId, row: Request): Requests { t.(rows := t.rows[r := row]) }

  function InsertRow(t: Requests, r: RequestId, row: Request): Requests {
    Requests(t.rows[r := row], t.index[row.idem := r])
  }

  function DeleteRow(t: Requests, r: RequestId): Requests {
    if r in t.rows then Requests(t.rows - {r}, t.index - {t.rows[r].idem}) else t
  }

  /** Mark a row failed and refund its charge; a row that is gone is left alone. */
  function MarkFailed(w: World, r: RequestId, code: ErrorCode): World {
    if r !in w.requests.rows then w
    else
      var row := w.requests.rows[r];
      w.(requests := SetRow(w.requests, r, row.(status := Unsuccessful, error := Some(code))),
         book := RefundOp(w.book, SignArgs(row.idem, r, w.price)).0)
  }

  datatype Dwallet = NotFound | Inactive | Active(curve: nat)

  /** A prepare call, with what its lookups and its presign allocation turn up. */
  datatype PrepareArgs = PrepareArgs(
    idem: IdemKey,
    algorithm: nat,
    dwallet: Dwallet,
    nek: Option<nat>,          // none: the lookup threw
    newId: RequestId,          // randomUUID
    pick: Option<PresignId>,   // row chosen by the claiming UPDATE; none if it skipped them all
    reachable: bool)           // the presign's bytes could be read, given a live cap

  datatype PrepareError =
    | DwalletNotFound
    | DwalletNotActive
    | Billing(error: BillingError)
    | DuplicateKey
    | NekUnavailable
    | PoolEmpty
    | CapGone
    | BytesUnavailable

  datatype Prepared = PreparedResult(request: RequestId, cap: CapId, duplicate: bool)

  /** Read the bytes of a cap: a missing cap quarantines its row. */
  function Fetch(w: World, answer: Prepared, reachable: bool): (World, Result<Prepared, PrepareError>) {
    if !w.chain.Alive(answer.cap) then (w.(pool := Quarantine(w.pool, answer.cap)), Err(CapGone))
    else if !reachable then (w, Err(BytesUnavailable))
    else (w, Ok(answer))
  }

  /** The presign already linked under a key, if the key has one. */
  function Linked(w: World, idem: IdemKey): Option<PresignId> {
    if idem in w.requests.index && w.requests.index[idem] in w.requests.rows then
      var link := w.requests.rows[w.requests.index[idem]].presign;
      if link.Some? && link.value in w.pool then link else None
    else None
  }

  function Prepare(w: World, a: PrepareArgs): (World, Result<Prepared, PrepareError>) {
    match Linked(w, a.idem)
    case Some(p) => Fetch(w, PreparedResult(w.requests.index[a.idem], w.pool[p].cap, true), a.reachable)
    case None =>
      match a.dwallet
      case NotFound => (w, Err(DwalletNotFound))
      case Inactive => (w, Err(DwalletNotActive))
      case Active(curve) => PrepareNew(w, a, curve)
  }

  function FreshRow(a: PrepareArgs, curve: nat): Request {
    Request(a.idem, curve, a.algorithm, None, SignStatus.Prepared, None, false)
  }

  /** Charge first; only then touch the tables. */
  function PrepareNew(w: World, a: PrepareArgs, curve: nat): (World, Result<Prepared, PrepareError>) {
    var (book, charged) := ChargeOp(w.book, SignArgs(a.idem, a.newId, w.price));
    if charged.Err? then (w.(book := book), Err(Billing(charged.error)))
    else if a.idem in w.requests.index then (w.(book := book), Err(DuplicateKey))
    else Reserve(w.(book := book, requests := InsertRow(w.requests, a.newId, FreshRow(a, curve))), a)
  }

  /** Find a presign for the inserted row; without one, drop the row and refund. */
  function Reserve(w: World, a: PrepareArgs): (World, Result<Prepared, PrepareError>)
    requires a.newId in w.requests.rows
  {
    var row := w.requests.rows[a.newId];
    if a.nek.None? then (w, Err(NekUnavailable))
    else if a.pick.None? || !Claimable(w.pool, a.pick.value, Bucket(a.idem.network, row.curve, a.algorithm, a.nek.value)) then
      (Withdraw(w, a), Err(PoolEmpty))
    else
      Fetch(Link(w, a.newId, a.pick.value), PreparedResult(a.newId, w.pool[a.pick.value].cap, false), a.reachable)
  }

  function Withdraw(w: World, a: PrepareArgs): World {
    w.(requests := DeleteRow(w.requests, a.newId), book := RefundOp(w.book, SignArgs(a.idem, a.newId, w.price)).0)
  }

  /** Claim a presign for a row and link it. */
  function Link(w: World, r: RequestId, p: PresignId): World
    requires r in w.requests.rows && p in w.pool
  {
    w.(pool := Claim(w.pool, p, r), requests := SetRow(w.requests, r, w.requests.rows[r].(presign := Some(p))))
  }

  datatype SubmitError = SignNotFound | SignBadState | SignNoPresign

  function Submit(w: World, user: UserId, network: Network, r: RequestId): (World, Result<SignStatus, SubmitError>) {
    if r !in w.requests.rows || w.requests.rows[r].idem.user != user || w.requests.rows[r].idem.network != network then
      (w, Err(SignNotFound))
    else
      var row := w.requests.rows[r];
      if row.status == Queued || row.Spent() then (w, Ok(row.status))
      else if row.status != SignStatus.Prepared then (w, Err(SignBadState))
      else if row.presign.None? then (w, Err(SignNoPresign))
      else
        (w.(requests := SetRow(w.requests, r, row.(status := Queued, signed := true)), sent := w.sent + [r]), Ok(Queued))
  }

  // ---------------------------------------------------------------------------
  // The sign job
  // ---------------------------------------------------------------------------

  datatype DwalletRow = Present | Vanished | Unlinked   // unlinked: the account lookup throws

  /** Everything a job does before it hands its transaction to the executor. */
  function StartJob(w: World, r: RequestId, dwallet: DwalletRow): World {
    if r !in w.requests.rows || w.requests.rows[r].status != Queued then w
    else
      var row := w.requests.rows[r];
      if row.presign.None? then MarkFailed(w, r, NoPresign)
      else if !row.signed then MarkFailed(w, r, MissingInputs)
      else if row.presign.value !in w.pool then MarkFailed(w, r, PresignGone)
      else
        match dwallet
        case Vanished => MarkFailed(w, r, DwalletGone)
        case Unlinked => w
        case Present => w.(jobs := w.jobs[r := Executing(row.presign.value)])
  }

  /** What the chain makes of the job's transaction. */
  function ChainAfter(chain: Chain, r: RequestId, cap: CapId, fate: TxExecutor.Fate): Chain {
    match fate
    case Executed => chain.(burnedBy := chain.burnedBy[cap := r])
    case InFlight => chain.(inFlight := chain.inFlight[r := cap])
    case _ => chain
  }

  /** The executor's outcome and the table writes that follow it. */
  function FinishExecute(w: World, r: RequestId, o: TxExecutor.Observation, fate: TxExecutor.Fate, signId: bool): World
    requires r in w.jobs && w.jobs[r].Executing? && w.jobs[r].presign in w.pool
  {
    var p := w.jobs[r].presign;
    var w := w.(chain := ChainAfter(w.chain, r, w.pool[p].cap, fate), jobs := w.jobs - {r});
    match TxExecutor.Execute(o)
    case Done(_) =>
      if !signId then MarkFailed(w.(pool := SetStatus(w.pool, p, Used)), r, NoSignId)
      else
        w.(pool := SetStatus(w.pool, p, ConsumedPending),
           requests := if r in w.requests.rows then SetRow(w.requests, r, w.requests.rows[r].(status := Submitted)) else w.requests,
           jobs := w.jobs[r := Polling(p)])
    case outcome =>
      if TxExecutor.Rollbackable(outcome) then MarkFailed(w.(pool := RollbackToReady(w.pool, p)), r, SubmitFailed)
      else MarkFailed(w.(pool := SetStatus(w.pool, p, Used)), r, SubmitUnknown)
  }

  function FinishPolling(w: World, r: RequestId, completed: bool): World
    requires r in w.jobs && w.jobs[r].Polling?
  {
    var p := w.jobs[r].presign;
    var w := w.(pool := SetStatus(w.pool, p, Used), jobs := w.jobs - {r});
    if !completed then MarkFailed(w, r, CoordinatorTimeout)
    else if r in w.requests.rows then
      w.(requests := SetRow(w.requests, r, w.requests.rows[r].(status := Completed)))
    else w
  }

  // ---------------------------------------------------------------------------
  // Sweeps and reconciliation
  // ---------------------------------------------------------------------------

  /** One stuck row: its presign goes back to the pool whatever state that presign is in. */
  function ExpirePrepared(w: World, r: RequestId): World {
    if r !in w.requests.rows || w.requests.rows[r].status != SignStatus.Prepared then w
    else
      var link := w.requests.rows[r].presign;
      MarkFailed(if link.Some? then w.(pool := RollbackToReady(w.pool, link.value)) else w, r, PrepareExpired)
  }

  predicate Recoverable(w: World, r: RequestId) {
    && r in w.requests.rows
    && w.requests.rows[r].status == Unsuccessful
    && w.requests.rows[r].error == Some(SubmitUnknown)
    && w.requests.rows[r].presign.Some?
    && w.requests.rows[r].presign.value in w.pool
    && var p := w.pool[w.requests.rows[r].presign.value];
       (p.status == Failed || p.status == Used) && w.chain.Alive(p.cap)
  }

  function Reconcile(w: World, r: RequestId): World {
    if Recoverable(w, r) then w.(pool := RollbackToReady(w.pool, w.requests.rows[r].presign.value)) else w
  }

  // ---------------------------------------------------------------------------
  // Events
  // ---------------------------------------------------------------------------

  datatype Event =
    | Mint(cap: CapId, bucket: Bucket)
    | Track(presign: PresignId, cap: CapId)            // refill's insert, or one discover insert
    | Promote(presign: PresignId)
    | PrepareSign(args: PrepareArgs)
    | SubmitSign(user: UserId, network: Network, request: RequestId)
    | Begin(request: RequestId, dwallet: DwalletRow)
    | Run(request: RequestId, seen: TxExecutor.Observation, fate: TxExecutor.Fate, signId: bool)
    | Poll(request: RequestId, completed: bool)
    | Crash(request: RequestId)                        // a job dies before or after its transaction
    | Settle(request: RequestId, executes: bool)       // an unknown transaction lands or is dropped
    | Expire(request: RequestId)
    | SweepPresigns(rescued: set<PresignId>, parked: set<PresignId>)
    | ReconcileOne(request: RequestId)
    | Bill(op: Op)                                     // deposits, other services' charges and refunds

  predicate Tracked(pool: Pool, cap: CapId) { exists p :: p in pool && pool[p].cap == cap }

  /** A fresh id: no row and no ledger entry has used it. */
  ghost predicate FreshId(w: World, r: RequestId) {
    r !in w.requests.rows && forall e :: e in w.book.entries && e.key.opType == Sign ==> e.key.opId != r
  }

  /** No prepared or queued request links the presign: what a rescue relies on its age to imply. */
  predicate Unclaimed(rows: map<RequestId, Request>, p: PresignId) {
    forall r :: r in rows && rows[r].Active() ==> rows[r].presign != Some(p)
  }

  predicate SweepAgesAreRight(w: World, rescued: set<PresignId>) {
    forall p :: p in rescued ==> Unclaimed(w.requests.rows, p)
  }

  /** What the environment may do, with the statements' own WHERE clauses. */
  ghost predicate Possible(w: World, e: Event) {
    match e
    case Mint(c, _) => c !in w.chain.minted
    case Track(p, c) => p !in w.pool && w.chain.Alive(c)
    case Promote(p) => p in w.pool && w.pool[p].status == Pending && w.chain.Alive(w.pool[p].cap)
    case PrepareSign(a) => FreshId(w, a.newId)
    case SubmitSign(_, _, _) => true
    case Begin(r, _) => r in w.sent && r !in w.jobs
    case Run(r, o, fate, signId) =>
      && r in w.jobs && w.jobs[r].Executing? && w.jobs[r].presign in w.pool
      && TxExecutor.Consistent(o, fate)
      && (fate == TxExecutor.Executed ==> w.chain.Alive(w.pool[w.jobs[r].presign].cap))
      && (signId ==> fate == TxExecutor.Executed)
    case Poll(r, _) => r in w.jobs && w.jobs[r].Polling?
    case Crash(r) => r in w.jobs
    case Settle(r, executes) => r in w.chain.inFlight && (executes ==> w.chain.Alive(w.chain.inFlight[r]))
    case Expire(_) => true
    case SweepPresigns(rescued, parked) =>
      && (forall p :: p in rescued ==> p in w.pool && w.pool[p].status == Allocated)
      && (forall p :: p in parked ==> p in w.pool && w.pool[p].status == ConsumedPending)
    case ReconcileOne(_) => true
    case Bill(op) => op.ChargeTx? || op.RefundTx? ==> op.args.opType != Sign
  }

  /** Reconciliation waits until no transaction on the cap is unsettled. */
  predicate Settled(w: World, r: RequestId) {
    r in w.requests.rows && w.requests.rows[r].presign.Some? && w.requests.rows[r].presign.value in w.pool ==>
      w.pool[w.requests.rows[r].presign.value].cap !in w.chain.inFlight.Values
  }

  /** The two timing assumptions that the code relies on and does not check. */
  predicate Timely(w: World, e: Event) {
    match e
    case SweepPresigns(rescued, _) => SweepAgesAreRight(w, rescued)
    case ReconcileOne(r) => Settled(w, r)
    case _ => true
  }

  function Next(w: World, e: Event): World
    requires Possible(w, e)
  {
    match e
    case Mint(c, bucket) => w.(chain := w.chain.(minted := w.chain.minted[c := bucket]))
    case Track(p, c) =>
      if Tracked(w.pool, c) then w
      else w.(pool := w.pool[p := Presign(c, w.chain.minted[c], Pending, None)])
    case Promote(p) => w.(pool := SetStatus(w.pool, p, Ready))
    case PrepareSign(a) => Prepare(w, a).0
    case SubmitSign(user, network, r) => Submit(w, user, network, r).0
    case Begin(r, dwallet) => StartJob(w, r, dwallet)
    case Run(r, o, fate, signId) => FinishExecute(w, r, o, fate, signId)
    case Poll(r, completed) => FinishPolling(w, r, completed)
    case Crash(r) => w.(jobs := w.jobs - {r})
    case Settle(r, executes) =>
      w.(chain := w.chain.(
        inFlight := w.chain.inFlight - {r},
        burnedBy := if executes then w.chain.burnedBy[w.chain.inFlight[r] := r] else w.chain.burnedBy))
    case Expire(r) => ExpirePrepared(w, r)
    case SweepPresigns(rescued, parked) => w.(pool := Sweep(w.pool, rescued, parked))
    case ReconcileOne(r) => Reconcile(w, r)
    case Bill(op) => w.(book := Serial(w.book, op).0)
  }

  function Start(price: nat): World {
    World(map[], Requests(map[], map[]), Book(map[], [], []), Chain(map[], map[], map[]), map[], [], price)
  }

  /** Runs in which the timing assumptions hold. */
  ghost predicate IsRun(ws: seq<World>, es: seq<Event>) {
    && |ws| == |es| + 1
    && ws[0] == Start(ws[0].price)
    && forall i :: 0 <= i < |es| ==> Possible(ws[i], es[i]) && Timely(ws[i], es[i]) && ws[i + 1] == Next(ws[i], es[i])
  }
}
