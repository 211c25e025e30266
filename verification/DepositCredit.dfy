/** Verifying a declared deposit: what a transaction's balance changes credit, coin by coin. */
module DepositCredit {
  import opened Common
  import Billing
  import Ledger
  import Pricing

  type CoinType = Pricing.CoinType

  datatype Change = Change(address: string, coin: string, amount: int)

  datatype ChainTx = ChainTx(executed: bool, error: Option<string>, sender: Option<string>, changes: seq<Change>)

  datatype VerifyError = DepositTxFailed | DepositBadShape | DepositNoCredit

  /** Whose changes count, which coins, and `normalizeStructTag`. */
  datatype Terms = Terms(recipient: string, accepted: seq<string>, norm: Pricing.Normalize)
  {
    function Accepted(): set<CoinType> { set i | 0 <= i < |accepted| :: norm(accepted[i]) }

    /** What one change credits in coin `ct`. */
    function Worth(c: Change, ct: CoinType): nat {
      if c.address == recipient && norm(c.coin) == ct && ct in Accepted() && c.amount > 0 then c.amount else 0
    }
  }

  /** What the changes credit in coin `ct`, added up one by one. */
  function Credit(t: Terms, changes: seq<Change>, ct: CoinType): nat {
    if changes == [] then 0
    else Credit(t, changes[..|changes| - 1], ct) + t.Worth(changes[|changes| - 1], ct)
  }

  ghost predicate Sums(t: Terms, changes: seq<Change>, sums: map<CoinType, nat>) {
    forall ct :: (ct in sums <==> Credit(t, changes, ct) > 0) && (ct in sums ==> sums[ct] == Credit(t, changes, ct))
  }

  lemma CreditNext(t: Terms, changes: seq<Change>, i: nat, ct: CoinType)
    requires i < |changes|
    ensures Credit(t, changes[..i + 1], ct) == Credit(t, changes[..i], ct) + t.Worth(changes[i], ct)
  {
    assert changes[..i + 1][..i] == changes[..i];
  }

  /** The summing loop. */
  method SumCredits(t: Terms, changes: seq<Change>) returns (sums: map<CoinType, nat>)
    ensures Sums(t, changes, sums)
  {
    sums := map[];
    for i := 0 to |changes|
      invariant Sums(t, changes[..i], sums)
    {
      var change := changes[i];
      forall ct ensures Credit(t, changes[..i + 1], ct) == Credit(t, changes[..i], ct) + t.Worth(change, ct) {
        CreditNext(t, changes, i, ct);
      }
      var ct := t.norm(change.coin);
      if change.address == t.recipient && ct in t.Accepted() && change.amount > 0 {
        sums := sums[ct := (if ct in sums then sums[ct] else 0) + change.amount];
      }
    }
    assert changes[..|changes|] == changes;
  }

  /** The sums are one map: a coin is credited exactly when something positive came in. */
  method VerifyDeposit(t: Terms, tx: ChainTx) returns (r: Result<map<CoinType, nat>, VerifyError>)
    ensures r == Err(DepositTxFailed) <==> !tx.executed || tx.error.Some?
    ensures r == Err(DepositBadShape) <==> tx.executed && tx.error.None? && tx.sender.None?
    ensures r.Ok? ==> r.value != map[] && Sums(t, tx.changes, r.value)
    ensures r == Err(DepositNoCredit) ==> forall ct :: Credit(t, tx.changes, ct) == 0
  {
    if !tx.executed || tx.error.Some? {
      return Err(DepositTxFailed);
    }
    if tx.sender.None? {
      return Err(DepositBadShape);
    }
    var sums := SumCredits(t, tx.changes);
    if sums == map[] {
      forall ct ensures Credit(t, tx.changes, ct) == 0 { assert ct !in sums; }
      return Err(DepositNoCredit);
    }
    return Ok(sums);
  }

  /** Lists that credit every coin alike verify to the same sums. */
  lemma EqualCreditsEqualSums(t: Terms, some: seq<Change>, others: seq<Change>, a: map<CoinType, nat>, b: map<CoinType, nat>)
    requires Sums(t, some, a) && Sums(t, others, b)
    requires forall ct :: Credit(t, some, ct) == Credit(t, others, ct)
    ensures a == b
  {
    forall ct ensures ct in a <==> ct in b { assert Credit(t, some, ct) == Credit(t, others, ct); }
    forall ct | ct in a ensures a[ct] == b[ct] { assert Credit(t, some, ct) == Credit(t, others, ct); }
  }

  lemma {:induction false} CreditConcat(t: Terms, a: seq<Change>, b: seq<Change>, ct: CoinType)
    ensures Credit(t, a + b, ct) == Credit(t, a, ct) + Credit(t, b, ct)
    decreases |b|
  {
    if b == [] {
      assert a + b == a;
    } else {
      CreditConcat(t, a, b[..|b| - 1], ct);
      assert (a + b)[..|a + b| - 1] == a + b[..|b| - 1];
    }
  }

  lemma RemoveOne(t: Terms, b: seq<Change>, i: nat, ct: CoinType)
    requires i < |b|
    ensures Credit(t, b, ct) == Credit(t, b[..i] + b[i + 1..], ct) + t.Worth(b[i], ct)
  {
    CreditNext(t, b, i, ct);
    CreditConcat(t, b[..i], b[i + 1..], ct);
    CreditConcat(t, b[..i + 1], b[i + 1..], ct);
    assert b == b[..i + 1] + b[i + 1..];
  }

  lemma WithoutAt(b: seq<Change>, i: nat)
    requires i < |b|
    ensures multiset(b[..i] + b[i + 1..]) == multiset(b) - multiset{b[i]}
  {
    assert b == b[..i] + [b[i]] + b[i + 1..];
  }

  /** Where the last change of `a` stands in its rearrangement `b`. */
  lemma MatchLast(a: seq<Change>, b: seq<Change>) returns (i: nat)
    requires a != [] && multiset(a) == multiset(b)
    ensures i < |b| && b[i] == a[|a| - 1]
    ensures multiset(a[..|a| - 1]) == multiset(b[..i] + b[i + 1..])
  {
    var last := |a| - 1;
    assert a[last] in multiset(a);
    i :| 0 <= i < |b| && b[i] == a[last];
    WithoutAt(a, last);
    WithoutAt(b, i);
    assert a[..last] + a[last + 1..] == a[..last];
  }

  /** Crediting does not depend on the order of the balance changes. */
  lemma {:induction false} OrderDoesNotMatter(t: Terms, a: seq<Change>, b: seq<Change>, ct: CoinType)
    requires multiset(a) == multiset(b)
    ensures Credit(t, a, ct) == Credit(t, b, ct)
    decreases |a|
  {
    if a == [] {
      assert |b| == |multiset(b)| == 0;
    } else {
      var i := MatchLast(a, b);
      OrderDoesNotMatter(t, a[..|a| - 1], b[..i] + b[i + 1..], ct);
      RemoveOne(t, b, i, ct);
    }
  }

  /** Nor on how one incoming amount is split in two, wherever the parts stand. */
  lemma SplittingDoesNotMatter(t: Terms, a: seq<Change>, b: seq<Change>, c: Change, x: nat, y: nat, ct: CoinType)
    requires c.amount == x + y
    ensures Credit(t, a + [c.(amount := x)] + [c.(amount := y)] + b, ct) == Credit(t, a + [c] + b, ct)
  {
    CreditConcat(t, a + [c.(amount := x)] + [c.(amount := y)], b, ct);
    CreditConcat(t, a + [c.(amount := x)], [c.(amount := y)], ct);
    CreditConcat(t, a, [c.(amount := x)], ct);
    CreditConcat(t, a + [c], b, ct);
    CreditConcat(t, a, [c], ct);
  }

  // ---------------------------------------------------------------------------
  // What counts
  // ---------------------------------------------------------------------------

  /** The coin is on the operator's list, however either is written. */
  predicate OnList(t: Terms, coin: string) { exists i :: 0 <= i < |t.accepted| && t.norm(t.accepted[i]) == t.norm(coin) }

  lemma InsertedCredit(t: Terms, a: seq<Change>, c: Change, b: seq<Change>, ct: CoinType)
    ensures Credit(t, a + [c] + b, ct) == Credit(t, a + b, ct) + t.Worth(c, ct)
  {
    CreditConcat(t, a + [c], b, ct);
    CreditConcat(t, a, [c], ct);
    CreditConcat(t, a, b, ct);
  }

  /** No changes, no sums. */
  lemma NothingCredited(t: Terms, sums: map<CoinType, nat>)
    requires Sums(t, [], sums)
    ensures sums == map[]
  {
    assert forall ct :: ct !in sums;
  }

  /** A change to another address, in a coin not on the list, or not positive, adds nothing, wherever it stands. */
  lemma OtherChangesDoNotCount(t: Terms, a: seq<Change>, c: Change, b: seq<Change>, without: map<CoinType, nat>, with_: map<CoinType, nat>)
    requires c.address != t.recipient || !OnList(t, c.coin) || c.amount <= 0
    requires Sums(t, a + b, without) && Sums(t, a + [c] + b, with_)
    ensures with_ == without
  {
    forall ct ensures Credit(t, a + [c] + b, ct) == Credit(t, a + b, ct) { InsertedCredit(t, a, c, b, ct); }
    EqualCreditsEqualSums(t, a + [c] + b, a + b, with_, without);
  }

  /** A positive change to the recipient in a coin on the list raises that coin's sum by its amount, and no other. */
  lemma PaymentCounts(t: Terms, a: seq<Change>, c: Change, b: seq<Change>, without: map<CoinType, nat>, with_: map<CoinType, nat>)
    requires c.address == t.recipient && OnList(t, c.coin) && c.amount > 0
    requires Sums(t, a + b, without) && Sums(t, a + [c] + b, with_)
    ensures var ct := t.norm(c.coin);
            with_ == without[ct := (if ct in without then without[ct] else 0) + c.amount]
  {
    var ct := t.norm(c.coin);
    forall k ensures k in with_ <==> k in without || k == ct { InsertedCredit(t, a, c, b, k); }
    forall k | k in with_ ensures with_[k] == (if k in without then without[k] else 0) + if k == ct then c.amount else 0 {
      InsertedCredit(t, a, c, b, k);
    }
  }

  // ---------------------------------------------------------------------------
  // From verified amounts to balances
  // ---------------------------------------------------------------------------

  /** One coin at one price. */
  datatype Rate = Rate(coin: CoinType, price: nat, decimals: nat)
  {
    function Micro(amount: nat): nat { Pricing.MicroUsdFromAtomic(amount, price, decimals) }
  }

  /** A declared deposit that verifies to one coin; both price reads answer the same rate. */
  function Declare(h: Ledger.Account, digest: string, rate: Rate, amount: nat, minimum: nat): Billing.Declared {
    Billing.Declared(h, digest, Ok([Ledger.Coin(rate.coin, rate.Micro(amount))]), [rate.Micro(amount)], minimum)
  }

  /** Fresh digests, one to a deposit. */
  ghost predicate Fresh(b: Ledger.Book, digests: seq<string>) {
    && (forall i :: 0 <= i < |digests| ==> !Ledger.Credited(b.deposits, digests[i]))
    && (forall i, j :: 0 <= i < j < |digests| ==> digests[i] != digests[j])
  }

  /** One declared deposit: credited with its own row if it reaches the minimum, else refused. */
  lemma DeclaredOnce(b: Ledger.Book, h: Ledger.Account, digest: string, rate: Rate, amount: nat, minimum: nat)
    requires h in b.accounts && !Ledger.Credited(b.deposits, digest)
    ensures Billing.RecordOp(b, Declare(h, digest, rate, amount, minimum)).0 ==
              if rate.Micro(amount) < minimum then b
              else b.(deposits := b.deposits + [Ledger.Deposit(h, digest, rate.Micro(amount))],
                      accounts := b.accounts[h := b.accounts[h] + rate.Micro(amount)])
  {
    var d := Declare(h, digest, rate, amount, minimum);
    assert d.quotes[..0] == [];
    assert Billing.Sum(d.quotes) == rate.Micro(amount);
    if rate.Micro(amount) >= minimum {
      Billing.OneCoinCredits(b, d, Ledger.Coin(rate.coin, rate.Micro(amount)));
    }
  }

  /** The amounts declared one transaction at a time. */
  function RecordEach(b: Ledger.Book, h: Ledger.Account, digests: seq<string>, rate: Rate, amounts: seq<nat>, minimum: nat): Ledger.Book
    requires |digests| == |amounts|
    decreases |amounts|
  {
    if amounts == [] then b
    else
      var n := |amounts| - 1;
      Billing.RecordOp(RecordEach(b, h, digests[..n], rate, amounts[..n], minimum),
                       Declare(h, digests[n], rate, amounts[n], minimum)).0
  }

  /** What the amounts that reach the minimum convert to. */
  function Kept(rate: Rate, amounts: seq<nat>, minimum: nat): nat {
    if amounts == [] then 0
    else
      var micro := rate.Micro(amounts[|amounts| - 1]);
      Kept(rate, amounts[..|amounts| - 1], minimum) + if micro >= minimum then micro else 0
  }

  /** What the amounts below the minimum would have converted to. */
  function Refused(rate: Rate, amounts: seq<nat>, minimum: nat): nat {
    if amounts == [] then 0
    else
      var micro := rate.Micro(amounts[|amounts| - 1]);
      Refused(rate, amounts[..|amounts| - 1], minimum) + if micro >= minimum then 0 else micro
  }

  lemma {:induction false} KeptOrRefused(rate: Rate, amounts: seq<nat>, minimum: nat)
    ensures Kept(rate, amounts, minimum) + Refused(rate, amounts, minimum) == Pricing.Earned(amounts, rate.price, rate.decimals)
    ensures Kept(rate, amounts, minimum) != 0 ==> Kept(rate, amounts, minimum) >= minimum
    ensures Refused(rate, amounts, minimum) == 0 <==>
              forall i :: 0 <= i < |amounts| ==> rate.Micro(amounts[i]) >= minimum || rate.Micro(amounts[i]) == 0
  {
    if amounts != [] {
      var rest, last := amounts[..|amounts| - 1], amounts[|amounts| - 1];
      KeptOrRefused(rate, rest, minimum);
      assert amounts == rest + [last];
      assert forall i :: 0 <= i < |rest| ==> rest[i] == amounts[i];
    }
  }

  lemma {:induction false} RecordEachEarns(
      b: Ledger.Book, h: Ledger.Account, digests: seq<string>, rate: Rate, amounts: seq<nat>, minimum: nat)
    requires |digests| == |amounts| && h in b.accounts && Fresh(b, digests)
    ensures var after := RecordEach(b, h, digests, rate, amounts, minimum);
            Earns(b, after, h, digests, Kept(rate, amounts, minimum))
    decreases |amounts|
  {
    if amounts != [] {
      var n := |amounts| - 1;
      FreshPrefix(b, digests, n);
      RecordEachEarns(b, h, digests[..n], rate, amounts[..n], minimum);
      var before := RecordEach(b, h, digests[..n], rate, amounts[..n], minimum);
      EarnsNext(b, before, h, digests, n, rate, amounts[n], minimum, Kept(rate, amounts[..n], minimum));
    }
  }

  /** The account earned so much, under these digests; no other account changed. */
  ghost predicate Earns(b: Ledger.Book, after: Ledger.Book, h: Ledger.Account, digests: seq<string>, kept: nat)
    requires h in b.accounts
  {
    after.accounts == b.accounts[h := b.accounts[h] + kept] && OnlyAdds(b.deposits, after.deposits, digests)
  }

  lemma EarnsNext(b: Ledger.Book, before: Ledger.Book, h: Ledger.Account, digests: seq<string>, n: nat,
                  rate: Rate, amount: nat, minimum: nat, kept: nat)
    requires h in b.accounts && n + 1 == |digests| && Fresh(b, digests) && Earns(b, before, h, digests[..n], kept)
    ensures Earns(b, Billing.RecordOp(before, Declare(h, digests[n], rate, amount, minimum)).0, h, digests,
                  kept + if rate.Micro(amount) >= minimum then rate.Micro(amount) else 0)
  {
    NextIsFresh(b, before.deposits, digests, n);
    DeclaredOnce(before, h, digests[n], rate, amount, minimum);
    NewDigest(before.deposits, Ledger.Deposit(h, digests[n], rate.Micro(amount)));
  }

  /** Every digest credited after was credited before or is listed. */
  ghost predicate OnlyAdds(deposits: seq<Ledger.Deposit>, after: seq<Ledger.Deposit>, digests: seq<string>) {
    forall d :: Ledger.Credited(after, d) ==> Ledger.Credited(deposits, d) || d in digests
  }

  lemma FreshPrefix(b: Ledger.Book, digests: seq<string>, n: nat)
    requires Fresh(b, digests) && n <= |digests|
    ensures Fresh(b, digests[..n])
  {
  }

  lemma NextIsFresh(b: Ledger.Book, after: seq<Ledger.Deposit>, digests: seq<string>, n: nat)
    requires Fresh(b, digests) && n < |digests| && OnlyAdds(b.deposits, after, digests[..n])
    ensures !Ledger.Credited(after, digests[n])
    ensures OnlyAdds(b.deposits, after, digests)
  {
  }

  lemma NewDigest(deposits: seq<Ledger.Deposit>, row: Ledger.Deposit)
    ensures forall d :: Ledger.Credited(deposits + [row], d) ==> Ledger.Credited(deposits, d) || d == row.digest
  {
    forall d | Ledger.Credited(deposits + [row], d) ensures Ledger.Credited(deposits, d) || d == row.digest {
      var i :| 0 <= i < |deposits + [row]| && (deposits + [row])[i].digest == d;
      if i < |deposits| { assert deposits[i].digest == d; }
    }
  }

  /** What rounding takes when the amounts are converted apart. */
  function Rounding(rate: Rate, amounts: seq<nat>): int {
    rate.Micro(Pricing.Total(amounts)) - Pricing.Earned(amounts, rate.price, rate.decimals)
  }

  /**
   * At one price, declaring an amount in k transactions instead of one never leaves a higher
   * balance. If the whole reaches the minimum, it leaves the balance lower by what rounding takes,
   * less than k microUSD, and by all that the parts below the minimum are worth: rounding is the
   * only loss exactly when every part worth anything reaches the minimum.
   */
  lemma SplitDepositsLoseExactly(
      b: Ledger.Book, h: Ledger.Account, digests: seq<string>, digest: string, rate: Rate, amounts: seq<nat>, minimum: nat)
    requires |digests| == |amounts| > 0 && h in b.accounts
    requires Fresh(b, digests) && !Ledger.Credited(b.deposits, digest)
    ensures 0 <= Rounding(rate, amounts) < |amounts|
    ensures var merged := Billing.RecordOp(b, Declare(h, digest, rate, Pricing.Total(amounts), minimum)).0;
            var parts := RecordEach(b, h, digests, rate, amounts, minimum);
            && h in merged.accounts && h in parts.accounts
            && parts.accounts[h] <= merged.accounts[h]
            && (rate.Micro(Pricing.Total(amounts)) < minimum ==> parts.accounts == merged.accounts == b.accounts)
            && (rate.Micro(Pricing.Total(amounts)) >= minimum ==>
                  && merged.accounts[h] - parts.accounts[h] == Rounding(rate, amounts) + Refused(rate, amounts, minimum)
                  && (merged.accounts[h] - parts.accounts[h] == Rounding(rate, amounts) <==>
                        forall i :: 0 <= i < |amounts| ==> rate.Micro(amounts[i]) >= minimum || rate.Micro(amounts[i]) == 0))
  {
    DeclaredOnce(b, h, digest, rate, Pricing.Total(amounts), minimum);
    RecordEachEarns(b, h, digests, rate, amounts, minimum);
    KeptOrRefused(rate, amounts, minimum);
    Pricing.SplittingLosesLessThanParts(amounts, rate.price, rate.decimals);
  }

  /** Parts that all stay below the minimum earn nothing, whatever the whole would have earned. */
  lemma PartsBelowMinimumEarnNothing(
      b: Ledger.Book, h: Ledger.Account, digests: seq<string>, rate: Rate, amounts: seq<nat>, minimum: nat)
    requires |digests| == |amounts| && h in b.accounts && Fresh(b, digests)
    requires forall i :: 0 <= i < |amounts| ==> rate.Micro(amounts[i]) < minimum
    ensures RecordEach(b, h, digests, rate, amounts, minimum).accounts == b.accounts
  {
    RecordEachEarns(b, h, digests, rate, amounts, minimum);
    NothingKept(rate, amounts, minimum);
  }

  lemma {:induction false} NothingKept(rate: Rate, amounts: seq<nat>, minimum: nat)
    requires forall i :: 0 <= i < |amounts| ==> rate.Micro(amounts[i]) < minimum
    ensures Kept(rate, amounts, minimum) == 0
  {
    if amounts != [] { NothingKept(rate, amounts[..|amounts| - 1], minimum); }
  }

  /** At a minimum of one dollar, one dollar is credited and two half dollars are not. */
  lemma HalfDollarsEarnNothing(b: Ledger.Book, h: Ledger.Account, coin: CoinType)
    requires h in b.accounts && Fresh(b, ["a", "b"]) && !Ledger.Credited(b.deposits, "c")
    ensures var rate := Rate(coin, 1, 0);
            var merged := Billing.RecordOp(b, Declare(h, "c", rate, 1_000_000, 1_000_000)).0;
            && h in merged.accounts && merged.accounts[h] == b.accounts[h] + 1_000_000
            && RecordEach(b, h, ["a", "b"], rate, [500_000, 500_000], 1_000_000).accounts == b.accounts
  {
    var rate := Rate(coin, 1, 0);
    assert rate.Micro(1_000_000) == 1_000_000 && rate.Micro(500_000) == 500_000;
    DeclaredOnce(b, h, "c", rate, 1_000_000, 1_000_000);
    PartsBelowMinimumEarnNothing(b, h, ["a", "b"], rate, [500_000, 500_000], 1_000_000);
  }
}
