/** The sign service and the presign pool as the code runs them: tables updated in place, statement by statement. */
module SignService {
  import opened Common
  import opened Ledger
  import opened Billing
  import opened SignPipeline
  import SignInvariant
  import SignRuns
  import TxExecutor

  /** Sweep the listed rows one after another. */
  function ExpireAll(w: World, stuck: seq<RequestId>): World {
    if stuck == [] then w else ExpirePrepared(ExpireAll(w, stuck[..|stuck| - 1]), stuck[|stuck| - 1])
  }

  function ReconcileAll(w: World, listed: seq<RequestId>): World {
    if listed == [] then w else Reconcile(ReconcileAll(w, listed[..|listed| - 1]), listed[|listed| - 1])
  }

  /** The query behind the sweep: distinct rows, each still prepared. */
  ghost predicate Selected(rows: map<RequestId, Request>, stuck: seq<RequestId>) {
    && (forall i :: 0 <= i < |stuck| ==> stuck[i] in rows && rows[stuck[i]].status == SignStatus.Prepared)
    && (forall i, j :: 0 <= i < j < |stuck| ==> stuck[i] != stuck[j])
  }

  /** The query behind reconciliation: failed, outcome unknown, presign row present. */
  predicate Listed(w: World, r: RequestId) {
    && r in w.requests.rows
    && w.requests.rows[r].status == Unsuccessful && w.requests.rows[r].error == Some(SubmitUnknown)
    && w.requests.rows[r].presign.Some? && w.requests.rows[r].presign.value in w.pool
  }

  datatype Verdict = Recover | Burned | Skipped

  /** How reconciliation reads a listed row. */
  function Classify(w: World, r: RequestId): Verdict
    requires Listed(w, r)
  {
    var x := w.pool[w.requests.rows[r].presign.value];
    if x.status != Failed && x.status != Used then Skipped
    else if w.chain.Alive(x.cap) then Recover
    else Burned
  }

  /** How many of the listed rows get verdict v, each read once those before it are handled. */
  function Tally(w: World, listed: seq<RequestId>, dryRun: bool, v: Verdict): nat {
    if listed == [] then 0
    else
      var n := |listed| - 1;
      var now := if dryRun then w else ReconcileAll(w, listed[..n]);
      Tally(w, listed[..n], dryRun, v) + if Listed(now, listed[n]) && Classify(now, listed[n]) == v then 1 else 0
  }

  lemma TallyNext(w: World, listed: seq<RequestId>, i: nat, dryRun: bool, v: Verdict)
    requires i < |listed|
    ensures var now := if dryRun then w else ReconcileAll(w, listed[..i]);
            Tally(w, listed[..i + 1], dryRun, v) ==
              Tally(w, listed[..i], dryRun, v) + if Listed(now, listed[i]) && Classify(now, listed[i]) == v then 1 else 0
  {
    assert listed[..i + 1][..i] == listed[..i];
  }

  class Service {
    const billing: BillingService
    const price: nat
    var pool: Pool
    var requests: Requests
    var chain: Chain                 // what truthful reads of the chain answer
    var jobs: map<RequestId, Job>
    var sent: seq<RequestId>

    constructor (billing: BillingService, price: nat)
      ensures this.billing == billing && View() == Start(price).(book := billing.View())
    {
      this.billing, this.price := billing, price;
      pool, requests, chain, jobs, sent := map[], Requests(map[], map[]), Chain(map[], map[], map[]), map[], [];
    }

    function View(): World
      reads this, billing
    {
      World(pool, requests, billing.View(), chain, jobs, sent, price)
    }

    // -------------------------------------------------------------------------
    // Presign pool statements
    // -------------------------------------------------------------------------

    /** The claiming UPDATE: at most one ready row of the bucket changes hands. */
    method Allocate(bucket: Bucket, r: RequestId, pick: Option<PresignId>) returns (claimed: Option<PresignId>)
      modifies this`pool
      ensures pick.Some? && Claimable(old(pool), pick.value, bucket) ==> claimed == pick && pool == Claim(old(pool), pick.value, r)
      ensures !(pick.Some? && Claimable(old(pool), pick.value, bucket)) ==> claimed.None? && pool == old(pool)
    {
      if pick.None? || !Claimable(pool, pick.value, bucket) {
        return None;
      }
      pool := pool[pick.value := pool[pick.value].(status := Allocated, owner := Some(r))];
      return pick;
    }

    method MarkPresign(p: PresignId, status: PresignStatus)
      modifies this`pool
      ensures pool == SetStatus(old(pool), p, status)
    {
      if p in pool {
        pool := pool[p := pool[p].(status := status)];
      }
    }

    method ReadyAgain(p: PresignId)
      modifies this`pool
      ensures pool == RollbackToReady(old(pool), p)
    {
      if p in pool {
        pool := pool[p := pool[p].(status := Ready, owner := None)];
      }
    }

    method FetchPresignBytes(answer: Prepared, reachable: bool) returns (r: Result<Prepared, PrepareError>)
      modifies this`pool
      ensures (View(), r) == Fetch(old(View()), answer, reachable)
    {
      if !chain.Alive(answer.cap) {
        pool := Quarantine(pool, answer.cap);
        return Err(CapGone);
      }
      if !reachable {
        return Err(BytesUnavailable);
      }
      return Ok(answer);
    }

    // -------------------------------------------------------------------------
    // Prepare and submit
    // -------------------------------------------------------------------------

    method PrepareSignRequest(a: PrepareArgs) returns (r: Result<Prepared, PrepareError>)
      modifies this, billing
      ensures (View(), r) == Prepare(old(View()), a)
    {
      if a.idem in requests.index && requests.index[a.idem] in requests.rows {
        var existing := requests.rows[requests.index[a.idem]];
        if existing.presign.Some? && existing.presign.value in pool {
          r := FetchPresignBytes(PreparedResult(requests.index[a.idem], pool[existing.presign.value].cap, true), a.reachable);
          return;
        }
      }
      if a.dwallet.NotFound? {
        return Err(DwalletNotFound);
      }
      if a.dwallet.Inactive? {
        return Err(DwalletNotActive);
      }
      var charged := billing.ChargeCredits(SignArgs(a.idem, a.newId, price));
      if charged.Err? {
        return Err(PrepareError.Billing(charged.error));
      }
      if a.idem in requests.index {
        return Err(DuplicateKey);
      }
      requests := InsertRow(requests, a.newId, FreshRow(a, a.dwallet.curve));
      r := ReservePresign(a);
    }

    method ReservePresign(a: PrepareArgs) returns (r: Result<Prepared, PrepareError>)
      requires a.newId in requests.rows
      modifies this, billing
      ensures (View(), r) == Reserve(old(View()), a)
    {
      if a.nek.None? {
        return Err(NekUnavailable);
      }
      var row := requests.rows[a.newId];
      var claimed := Allocate(Bucket(a.idem.network, row.curve, a.algorithm, a.nek.value), a.newId, a.pick);
      if claimed.None? {
        requests := DeleteRow(requests, a.newId);
        var _ := billing.RefundCredits(SignArgs(a.idem, a.newId, price));
        return Err(PoolEmpty);
      }
      requests := SetRow(requests, a.newId, row.(presign := claimed));
      r := FetchPresignBytes(PreparedResult(a.newId, pool[claimed.value].cap, false), a.reachable);
    }

    method SubmitPreparedSign(user: UserId, network: Network, r: RequestId) returns (answer: Result<SignStatus, SubmitError>)
      modifies this`requests, this`sent
      ensures (View(), answer) == Submit(old(View()), user, network, r)
    {
      if r !in requests.rows || requests.rows[r].idem.user != user || requests.rows[r].idem.network != network {
        return Err(SignNotFound);
      }
      var row := requests.rows[r];
      if row.status == Queued || row.status == Submitted || row.status == Completed {
        return Ok(row.status);
      }
      if row.status != SignStatus.Prepared {
        return Err(SignBadState);
      }
      if row.presign.None? {
        return Err(SignNoPresign);
      }
      requests := SetRow(requests, r, row.(status := Queued, signed := true));
      sent := sent + [r];
      return Ok(Queued);
    }

    // -------------------------------------------------------------------------
    // The sign job, between its suspension points
    // -------------------------------------------------------------------------

    method FailRequest(r: RequestId, code: ErrorCode)
      modifies this`requests, billing
      ensures View() == MarkFailed(old(View()), r, code)
    {
      if r in requests.rows {
        var row := requests.rows[r];
        requests := SetRow(requests, r, row.(status := Unsuccessful, error := Some(code)));
        var _ := billing.RefundCredits(SignArgs(row.idem, r, price));
      }
    }

    method BeginSignJob(r: RequestId, dwallet: DwalletRow)
      modifies this`requests, this`jobs, billing
      ensures View() == StartJob(old(View()), r, dwallet)
    {
      if r !in requests.rows || requests.rows[r].status != Queued {
        return;
      }
      var row := requests.rows[r];
      if row.presign.None? {
        FailRequest(r, NoPresign);
        return;
      }
      if !row.signed {
        FailRequest(r, MissingInputs);
        return;
      }
      if row.presign.value !in pool {
        FailRequest(r, PresignGone);
        return;
      }
      if dwallet.Vanished? {
        FailRequest(r, DwalletGone);
        return;
      }
      if dwallet.Present? {
        jobs := jobs[r := Executing(row.presign.value)];
      }
    }

    /** The executor has answered; the chain has done what `fate` says. */
    method AfterExecute(r: RequestId, o: TxExecutor.Observation, fate: TxExecutor.Fate, signId: bool)
      requires r in jobs && jobs[r].Executing? && jobs[r].presign in pool
      modifies this, billing
      ensures View() == FinishExecute(old(View()), r, o, fate, signId)
    {
      var p := jobs[r].presign;
      chain := ChainAfter(chain, r, pool[p].cap, fate);
      jobs := jobs - {r};
      var outcome := TxExecutor.Execute(o);
      if !outcome.Done? {
        if TxExecutor.Rollbackable(outcome) {
          ReadyAgain(p);
          FailRequest(r, SubmitFailed);
        } else {
          MarkPresign(p, Used);
          FailRequest(r, SubmitUnknown);
        }
        return;
      }
      MarkPresign(p, ConsumedPending);
      if !signId {
        MarkPresign(p, Used);
        FailRequest(r, NoSignId);
        return;
      }
      if r in requests.rows {
        requests := SetRow(requests, r, requests.rows[r].(status := Submitted));
      }
      jobs := jobs[r := Polling(p)];
    }

    method AfterPoll(r: RequestId, completed: bool)
      requires r in jobs && jobs[r].Polling?
      modifies this, billing
      ensures View() == FinishPolling(old(View()), r, completed)
    {
      MarkPresign(jobs[r].presign, Used);
      jobs := jobs - {r};
      if !completed {
        FailRequest(r, CoordinatorTimeout);
        return;
      }
      if r in requests.rows {
        requests := SetRow(requests, r, requests.rows[r].(status := Completed));
      }
    }

    // -------------------------------------------------------------------------
    // Sweeps and reconciliation
    // -------------------------------------------------------------------------

    /** No row is re-read: each is rolled back and failed as it was selected. */
    method SweepStuckPrepared(stuck: seq<RequestId>) returns (rescued: nat)
      requires Selected(requests.rows, stuck)
      modifies this`pool, this`requests, billing
      ensures View() == ExpireAll(old(View()), stuck) && rescued == |stuck|
    {
      for i := 0 to |stuck|
        invariant View() == ExpireAll(old(View()), stuck[..i])
        invariant forall j :: i <= j < |stuck| ==> stuck[j] in requests.rows && requests.rows[stuck[j]].status == SignStatus.Prepared
      {
        var r := stuck[i];
        assert stuck[..i + 1][..i] == stuck[..i];
        var link := requests.rows[r].presign;
        if link.Some? {
          ReadyAgain(link.value);
        }
        FailRequest(r, PrepareExpired);
      }
      assert stuck[..|stuck|] == stuck;
      return |stuck|;
    }

    /** One row: classify it, and put its presign back if that is called for. */
    method ReconcileRow(r: RequestId, dryRun: bool) returns (verdict: Verdict)
      requires Listed(View(), r)
      modifies this`pool
      ensures verdict == Classify(old(View()), r)
      ensures View() == if dryRun then old(View()) else Reconcile(old(View()), r)
      ensures verdict != Recover ==> View() == old(View())
    {
      var p := requests.rows[r].presign.value;
      if pool[p].status != Failed && pool[p].status != Used {
        return Skipped;
      }
      if !chain.Alive(pool[p].cap) {
        return Burned;
      }
      if !dryRun {
        ReadyAgain(p);
      }
      return Recover;
    }

    /** A dry run counts and changes nothing; an applied run re-readies what it finds alive. */
    method ReconcileUnknownSigns(listed: seq<RequestId>, dryRun: bool)
      returns (recoverable: nat, unrecoverable: nat, skipped: nat)
      requires forall i :: 0 <= i < |listed| ==> Listed(View(), listed[i])
      modifies this`pool
      ensures recoverable == Tally(old(View()), listed, dryRun, Recover)
      ensures unrecoverable == Tally(old(View()), listed, dryRun, Burned)
      ensures skipped == Tally(old(View()), listed, dryRun, Skipped)
      ensures View() == if dryRun then old(View()) else ReconcileAll(old(View()), listed)
      ensures recoverable + unrecoverable + skipped == |listed|
      ensures recoverable == 0 ==> View() == old(View())
    {
      recoverable, unrecoverable, skipped := 0, 0, 0;
      ghost var w := View();
      for i := 0 to |listed|
        invariant View() == if dryRun then w else ReconcileAll(w, listed[..i])
        invariant recoverable + unrecoverable + skipped == i
        invariant recoverable == Tally(w, listed[..i], dryRun, Recover)
        invariant unrecoverable == Tally(w, listed[..i], dryRun, Burned)
        invariant skipped == Tally(w, listed[..i], dryRun, Skipped)
      {
        StillListed(w, listed, i);
        AllTalliesNext(w, listed, i, dryRun);
        assert listed[..i + 1][..i] == listed[..i];
        var verdict := ReconcileRow(listed[i], dryRun);
        match verdict {
          case Recover => recoverable := recoverable + 1;
          case Burned => unrecoverable := unrecoverable + 1;
          case Skipped => skipped := skipped + 1;
        }
      }
      assert listed[..|listed|] == listed;
      if recoverable == 0 && !dryRun { NoneRecovered(w, listed); }
    }
  }

  lemma {:induction false} NoneRecovered(w: World, listed: seq<RequestId>)
    requires (forall j :: 0 <= j < |listed| ==> Listed(w, listed[j])) && Tally(w, listed, false, Recover) == 0
    ensures ReconcileAll(w, listed) == w
  {
    if listed != [] {
      var n := |listed| - 1;
      NoneRecovered(w, listed[..n]);
      assert Listed(w, listed[n]);
    }
  }

  /** Handling some rows leaves the others listed. */
  lemma StillListed(w: World, listed: seq<RequestId>, i: nat)
    requires i < |listed| && forall j :: 0 <= j < |listed| ==> Listed(w, listed[j])
    ensures Listed(w, listed[i]) && Listed(ReconcileAll(w, listed[..i]), listed[i])
  {
    ReconcileFrame(w, listed[..i]);
  }

  lemma AllTalliesNext(w: World, listed: seq<RequestId>, i: nat, dryRun: bool)
    requires i < |listed|
    ensures forall v :: var now := if dryRun then w else ReconcileAll(w, listed[..i]);
            Tally(w, listed[..i + 1], dryRun, v) ==
              Tally(w, listed[..i], dryRun, v) + if Listed(now, listed[i]) && Classify(now, listed[i]) == v then 1 else 0
  {
    forall v ensures var now := if dryRun then w else ReconcileAll(w, listed[..i]);
            Tally(w, listed[..i + 1], dryRun, v) ==
              Tally(w, listed[..i], dryRun, v) + if Listed(now, listed[i]) && Classify(now, listed[i]) == v then 1 else 0
    {
      TallyNext(w, listed, i, dryRun, v);
    }
  }

  // ---------------------------------------------------------------------------
  // Whole sweeps
  // ---------------------------------------------------------------------------

  lemma {:induction false} SweepKeepsInvariant(w: World, stuck: seq<RequestId>)
    requires SignInvariant.Inv(w)
    ensures SignInvariant.Inv(ExpireAll(w, stuck))
  {
    if stuck != [] {
      var r := stuck[|stuck| - 1];
      SweepKeepsInvariant(w, stuck[..|stuck| - 1]);
      SignRuns.NextKeeps(ExpireAll(w, stuck[..|stuck| - 1]), Expire(r));
    }
  }

  lemma {:induction false} ReconcileFrame(w: World, listed: seq<RequestId>)
    ensures ReconcileAll(w, listed) == w.(pool := ReconcileAll(w, listed).pool)
    ensures forall p :: p in w.pool ==>
              && p in ReconcileAll(w, listed).pool
              && (ReconcileAll(w, listed).pool[p] == w.pool[p] ||
                  ReconcileAll(w, listed).pool[p] == w.pool[p].(status := Ready, owner := None))
  {
    if listed != [] { ReconcileFrame(w, listed[..|listed| - 1]); }
  }

  /** A reconciled request is never recoverable again by the same run, whatever it handles next. */
  lemma {:induction false} ReconcileSettles(w: World, listed: seq<RequestId>, r: RequestId)
    requires r in listed && (forall i :: 0 <= i < |listed| ==> Listed(w, listed[i]))
    ensures !Recoverable(ReconcileAll(w, listed), r)
  {
    var n := |listed| - 1;
    ReconcileFrame(w, listed[..n]);
    ReconcileFrame(w, listed);
    if r in listed[..n] {
      ReconcileSettles(w, listed[..n], r);
    }
  }

  /** Reconciling the same list again changes nothing. */
  lemma ReconcileIsIdempotent(w: World, listed: seq<RequestId>)
    requires forall i :: 0 <= i < |listed| ==> Listed(w, listed[i])
    ensures ReconcileAll(ReconcileAll(w, listed), listed) == ReconcileAll(w, listed)
  {
    var w' := ReconcileAll(w, listed);
    forall r | r in listed ensures !Recoverable(w', r) { ReconcileSettles(w, listed, r); }
    NothingToReconcile(w', listed);
  }

  lemma {:induction false} NothingToReconcile(w: World, listed: seq<RequestId>)
    requires forall r :: r in listed ==> !Recoverable(w, r)
    ensures ReconcileAll(w, listed) == w
  {
    if listed != [] {
      assert listed[|listed| - 1] in listed;
      NothingToReconcile(w, listed[..|listed| - 1]);
    }
  }

  function Reopened(w: World, listed: seq<RequestId>): set<PresignId> {
    set p | p in w.pool && p in ReconcileAll(w, listed).pool && ReconcileAll(w, listed).pool[p] != w.pool[p]
  }

  /** An applied run counts as recoverable exactly the presigns it puts back, two rows that link one presign counting once. */
  lemma {:induction false} RecoverableCountsPresigns(w: World, listed: seq<RequestId>)
    requires forall i :: 0 <= i < |listed| ==> Listed(w, listed[i])
    ensures |Reopened(w, listed)| == Tally(w, listed, false, Recover)
  {
    if listed == [] {
      assert Reopened(w, listed) == {};
    } else {
      var n := |listed| - 1;
      var now, p := ReconcileAll(w, listed[..n]), w.requests.rows[listed[n]].presign.value;
      RecoverableCountsPresigns(w, listed[..n]);
      ReconcileFrame(w, listed[..n]);
      assert Listed(w, listed[n]);
      if Recoverable(now, listed[n]) {
        assert Reopened(w, listed) == Reopened(w, listed[..n]) + {p};
      } else {
        assert Reopened(w, listed) == Reopened(w, listed[..n]);
      }
    }
  }
}
