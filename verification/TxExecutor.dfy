/** The gas-station executor: what its failure phase says about the fate of a transaction. */
module TxExecutor {
  import opened Common

  datatype Phase = Preflight | Reverted | Unknown

  datatype Status = Success | Failure

  /** The pool's response block; the digest and the effects may each be missing. */
  datatype Block = Block(digest: Option<string>, status: Option<Status>)

  datatype Post =
    | HttpFailed                      // timeout, non-2xx, unreadable body, or an `error` field
    | Answered(block: Option<Block>)

  /** Everything the backend sees while executing one transaction. */
  datatype Observation = Observation(
    locked: bool,       // the per-network lock was acquired in time
    reserved: Option<Reservation>,
    signed: bool,       // build and sign both returned
    post: Post,
    translated: bool)   // the response block could be translated

  datatype Reservation = Reservation(sponsor: string, coins: seq<string>)

  /** What the chain did with the bytes, now or later. */
  datatype Fate =
    | NeverSent
    | Dropped     // sent, and never to be executed
    | Aborted     // executed and rolled back
    | InFlight    // sent, and may yet execute
    | Executed

  predicate Posted(o: Observation) { o.locked && o.reserved.Some? && o.signed }

  /** The fates that a truthful gas pool allows once the backend has seen `o`. */
  predicate Consistent(o: Observation, fate: Fate) {
    if !Posted(o) then fate == NeverSent
    else if o.post.HttpFailed? || o.post.block.None? || o.post.block.value.digest.None? then fate != NeverSent
    else
      match o.post.block.value.status
      case Some(Success) => fate == Executed
      case Some(Failure) => fate == Aborted
      case None => fate == Executed || fate == Aborted
  }

  /** The transaction did consume its input objects, or still may. */
  predicate Touches(fate: Fate) { fate == Executed || fate == InFlight }

  /** A return, a classified failure, or an error that carries no phase. */
  datatype Outcome = Done(digest: string) | Failed(phase: Phase) | Plain

  function Execute(o: Observation): Outcome {
    if !o.locked then Plain
    else if o.reserved.None? || !o.signed then Failed(Preflight)
    else
      match o.post
      case HttpFailed => Failed(Unknown)
      case Answered(None) => Failed(Unknown)
      case Answered(Some(block)) =>
        if block.digest.None? then Failed(Unknown)
        else if block.status.Some? && block.status.value.Failure? then Failed(Reverted)
        else if !o.translated then Plain
        else Done(block.digest.value)
  }

  /** The worker's reading of a failure: safe to put the presign back in the pool. */
  predicate Rollbackable(r: Outcome) { r == Failed(Preflight) || r == Failed(Reverted) }

  /** Each answer, by what was seen. */
  lemma AnswersExactly(o: Observation, digest: string)
    ensures Execute(o) == Plain <==>
              !o.locked
              || (Posted(o) && !o.translated && o.post.Answered? && o.post.block.Some? && o.post.block.value.digest.Some?
                  && o.post.block.value.status != Some(Failure))
    ensures Execute(o) == Failed(Preflight) <==> o.locked && (o.reserved.None? || !o.signed)
    ensures Execute(o) == Failed(Reverted) <==>
              Posted(o) && o.post.Answered? && o.post.block.Some? && o.post.block.value.digest.Some?
              && o.post.block.value.status == Some(Failure)
    ensures Execute(o) == Failed(Unknown) <==>
              Posted(o) && (o.post.HttpFailed? || o.post.block.None? || o.post.block.value.digest.None?)
    ensures Execute(o) == Done(digest) <==>
              Posted(o) && o.translated && o.post.Answered? && o.post.block.Some?
              && o.post.block.value.digest == Some(digest) && o.post.block.value.status != Some(Failure)
  {
  }

  /**
   * The classification is sound and as sharp as the observation allows: a failure is rolled back
   * exactly when the lock was acquired and no fate the chain may have chosen touches the inputs.
   */
  lemma RollbackExactlyWhenUntouched(o: Observation)
    ensures Rollbackable(Execute(o)) <==> o.locked && forall fate :: Consistent(o, fate) ==> !Touches(fate)
  {
    if o.locked && !Rollbackable(Execute(o)) {
      assert Consistent(o, Executed) && Touches(Executed);
    }
  }

  /** A clean return proves that the transaction executed exactly when the response carried a status. */
  lemma DoneMeansExecutedExactlyWithStatus(o: Observation)
    requires Execute(o).Done?
    ensures (forall fate :: Consistent(o, fate) ==> fate == Executed) <==> o.post.block.value.status.Some?
  {
    if o.post.block.value.status.None? {
      assert Consistent(o, Aborted);
    }
  }

  /** The transaction under construction; the executor pins its sender and its gas. */
  class Transaction {
    var sender: Option<string>
    var gasOwner: Option<string>
    var gasPayment: seq<string>
    var gasBudget: nat

    constructor ()
      ensures sender.None? && gasOwner.None? && gasPayment == [] && gasBudget == 0
    {
      sender, gasOwner, gasPayment, gasBudget := None, None, [], 0;
    }
  }

  class GasStationExecutor {
    const address: string
    const budget: nat

    constructor (address: string, budget: nat)
      ensures this.address == address && this.budget == budget
    {
      this.address, this.budget := address, budget;
    }

    /** Whatever is posted carries this wallet or the caller's own sender, and the reserved gas and no other. */
    method ExecuteLocked(tx: Transaction, o: Observation) returns (r: Outcome)
      modifies tx
      ensures r == Execute(o)
      ensures o.locked && old(tx.sender).None? ==> tx.sender == Some(address)
      ensures !o.locked || old(tx.sender).Some? ==> tx.sender == old(tx.sender)
      ensures Posted(o) ==>
                && tx.sender.Some?
                && tx.gasOwner == Some(o.reserved.value.sponsor)
                && tx.gasPayment == o.reserved.value.coins
                && tx.gasBudget == budget
      ensures !o.locked || o.reserved.None? ==>
                tx.gasOwner == old(tx.gasOwner) && tx.gasPayment == old(tx.gasPayment) && tx.gasBudget == old(tx.gasBudget)
    {
      if !o.locked {
        return Plain;
      }
      if tx.sender.None? {
        tx.sender := Some(address);
      }
      if o.reserved.None? {
        return Failed(Preflight);
      }
      tx.gasOwner := Some(o.reserved.value.sponsor);
      tx.gasPayment := o.reserved.value.coins;
      tx.gasBudget := budget;
      if !o.signed {
        return Failed(Preflight);
      }
      if o.post.HttpFailed? {
        return Failed(Unknown);
      }
      var block := o.post.block;
      if block.None? || block.value.digest.None? {
        return Failed(Unknown);
      }
      if block.value.status.Some? && block.value.status.value.Failure? {
        return Failed(Reverted);
      }
      if !o.translated {
        return Plain;
      }
      return Done(block.value.digest.value);
    }
  }
}
