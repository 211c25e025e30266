/**
 * The billing ledger: credit accounts, the append-only charge/refund table and the
 * deposit table, with the service calls that move credits, taken one at a time.
 * LedgerTransactions shows that concurrent calls behave as if taken one at a time.
 */
module Ledger {
  import opened Common

  datatype OpType = EncryptionKey | Dkg | Sign

  datatype Kind = Charge | Refund

  /** The columns of the unique index on the charge table. */
  datatype OpKey = OpKey(network: Network, opType: OpType, opId: nat, kind: Kind)

  datatype Account = Account(user: UserId, network: Network)

  /** One row of the charge table; `delta` is negative for a charge, positive for a refund. */
  datatype Entry = Entry(user: UserId, key: OpKey, delta: int)
  {
    function Holder(): Account { Account(user, key.network) }
  }

  /** One row of the deposit table; `digest` carries its own unique index. */
  datatype Deposit = Deposit(holder: Account, digest: string, credits: nat)

  datatype Book = Book(accounts: map<Account, int>, entries: seq<Entry>, deposits: seq<Deposit>)

  datatype BillingError =
    | BadChargeAmount
    | BadRefundAmount
    | InsufficientCredits
    | RefundNoMatchingCharge
    | RefundExceedsCharge
    | DepositTaken
    | DepositBelowMinimum
    | UniqueViolation

  datatype OpArgs = OpArgs(user: UserId, network: Network, opType: OpType, opId: nat, amount: int)
  {
    function Holder(): Account { Account(user, network) }

    function Key(kind: Kind): OpKey { OpKey(network, opType, opId, kind) }
  }

  // ---------------------------------------------------------------------------
  // Queries over the tables
  // ---------------------------------------------------------------------------

  function Find(entries: seq<Entry>, key: OpKey): (r: Option<Entry>)
    ensures r.Some? ==> r.value in entries && r.value.key == key
    ensures r.None? ==> forall e :: e in entries ==> e.key != key
  {
    if entries == [] then None
    else
      var last := entries[|entries| - 1];
      if last.key == key then Some(last) else Find(entries[..|entries| - 1], key)
  }

  /** Sum of the deltas recorded under one key: what the refund clamp adds up. */
  function SumFor(entries: seq<Entry>, key: OpKey): int
  {
    if entries == [] then 0
    else
      var last := entries[|entries| - 1];
      SumFor(entries[..|entries| - 1], key) + (if last.key == key then last.delta else 0)
  }

  /** Sum of the deltas recorded against one account. */
  function EntryTotal(entries: seq<Entry>, a: Account): int
  {
    if entries == [] then 0
    else
      var last := entries[|entries| - 1];
      EntryTotal(entries[..|entries| - 1], a) + (if last.Holder() == a then last.delta else 0)
  }

  function DepositTotal(deposits: seq<Deposit>, a: Account): nat
  {
    if deposits == [] then 0
    else
      var last := deposits[|deposits| - 1];
      DepositTotal(deposits[..|deposits| - 1], a) + (if last.holder == a then last.credits else 0)
  }

  function Credits(rows: seq<Deposit>): nat
  {
    if rows == [] then 0 else Credits(rows[..|rows| - 1]) + rows[|rows| - 1].credits
  }

  ghost predicate UniqueKeys(entries: seq<Entry>) {
    forall i, j :: 0 <= i < j < |entries| ==> entries[i].key != entries[j].key
  }

  ghost predicate UniqueDigests(deposits: seq<Deposit>) {
    forall i, j :: 0 <= i < j < |deposits| ==> deposits[i].digest != deposits[j].digest
  }

  predicate Credited(deposits: seq<Deposit>, digest: string) {
    exists i :: 0 <= i < |deposits| && deposits[i].digest == digest
  }

  // ---------------------------------------------------------------------------
  // Ledger operations, one at a time
  // ---------------------------------------------------------------------------

  function EnsureAccount(b: Book, a: Account): Book {
    if a in b.accounts then b else b.(accounts := b.accounts[a := 0])
  }

  /** Append one charge-table row and move its holder's balance by the same amount. */
  function Post(b: Book, e: Entry): Book
    requires e.Holder() in b.accounts
  {
    b.(accounts := b.accounts[e.Holder() := b.accounts[e.Holder()] + e.delta], entries := b.entries + [e])
  }

  function ChargeOp(b: Book, c: OpArgs): (Book, Result<Entry, BillingError>)
  {
    if c.amount <= 0 then (b, Err(BadChargeAmount))
    else
      var b := EnsureAccount(b, c.Holder());
      match Find(b.entries, c.Key(Charge))
      case Some(e) => (b, Ok(e))
      case None =>
        if b.accounts[c.Holder()] < c.amount then (b, Err(InsufficientCredits))
        else
          var e := Entry(c.user, c.Key(Charge), -c.amount);
          (Post(b, e), Ok(e))
  }

  function RefundOp(b: Book, c: OpArgs): (Book, Result<Entry, BillingError>)
  {
    if c.amount <= 0 then (b, Err(BadRefundAmount))
    else
      var b := EnsureAccount(b, c.Holder());
      match Find(b.entries, c.Key(Refund))
      case Some(e) => (b, Ok(e))
      case None =>
        var charged := -SumFor(b.entries, c.Key(Charge));
        if charged == 0 then (b, Err(RefundNoMatchingCharge))
        else if c.amount > charged - SumFor(b.entries, c.Key(Refund)) then (b, Err(RefundExceedsCharge))
        else
          var e := Entry(c.user, c.Key(Refund), c.amount);
          (Post(b, e), Ok(e))
  }

  /** One accepted coin of a verified deposit, already converted to microUSD credits. */
  datatype Coin = Coin(coinType: string, credits: nat)

  datatype DepositArgs = DepositArgs(holder: Account, digest: string, coins: seq<Coin>)

  function Tail(s: string): string { if |s| <= 8 then s else s[|s| - 8..] }

  /** The digest column of one coin's row: the bare digest unless the transaction moved several coins. */
  function RowDigest(d: DepositArgs, coinType: string): string {
    if |d.coins| == 1 then d.digest else d.digest + ":" + Tail(coinType)
  }

  function Rows(d: DepositArgs, n: nat): (rows: seq<Deposit>)
    requires n <= |d.coins|
    ensures |rows| == n
    ensures forall i :: 0 <= i < n ==> rows[i] == Deposit(d.holder, RowDigest(d, d.coins[i].coinType), d.coins[i].credits)
  {
    seq(n, i requires 0 <= i < n => Deposit(d.holder, RowDigest(d, d.coins[i].coinType), d.coins[i].credits))
  }

  /** Insert the rows and credit their sum; a unique violation rolls the transaction back. */
  function DepositOp(b: Book, d: DepositArgs): (Book, Result<seq<Deposit>, BillingError>)
  {
    var b := EnsureAccount(b, d.holder);
    var rows := Rows(d, |d.coins|);
    if !Insertable(b.deposits, rows) then (b, Err(UniqueViolation))
    else
      (b.(deposits := b.deposits + rows, accounts := b.accounts[d.holder := b.accounts[d.holder] + Credits(rows)]),
       Ok(rows))
  }

  /** Inserting the rows in order meets no conflict: each digest is new to the table and the rows before it. */
  predicate Insertable(deposits: seq<Deposit>, rows: seq<Deposit>) {
    rows == [] ||
    var n := |rows| - 1;
    Insertable(deposits, rows[..n]) && !Credited(deposits + rows[..n], rows[n].digest)
  }

  lemma {:induction false} InsertablePrefix(deposits: seq<Deposit>, rows: seq<Deposit>, k: nat)
    requires k <= |rows| && Insertable(deposits, rows)
    ensures Insertable(deposits, rows[..k])
  {
    if k < |rows| {
      InsertablePrefix(deposits, rows[..|rows| - 1], k);
      assert rows[..|rows| - 1][..k] == rows[..k];
    } else {
      assert rows[..k] == rows;
    }
  }

  datatype Op =
    | Open(account: Account)
    | ChargeTx(args: OpArgs)
    | RefundTx(args: OpArgs)
    | DepositTx(deposit: DepositArgs)
  {
    function Holder(): Account {
      match this
      case Open(a) => a
      case ChargeTx(c) => c.Holder()
      case RefundTx(c) => c.Holder()
      case DepositTx(d) => d.holder
    }

    /** The charge-table row this call wants to write. */
    function Row(): Entry
      requires ChargeTx? || RefundTx?
    {
      if ChargeTx? then Entry(args.user, args.Key(Charge), -args.amount)
      else Entry(args.user, args.Key(Refund), args.amount)
    }
  }

  datatype Answer = Opened | Posted(row: Entry) | Deposited(rows: seq<Deposit>) | Refused(error: BillingError)

  /** A call taken alone. */
  function Serial(b: Book, op: Op): (Book, Answer) {
    match op
    case Open(a) => (EnsureAccount(b, a), Opened)
    case ChargeTx(c) => var (b', r) := ChargeOp(b, c); (b', if r.Ok? then Posted(r.value) else Refused(r.error))
    case RefundTx(c) => var (b', r) := RefundOp(b, c); (b', if r.Ok? then Posted(r.value) else Refused(r.error))
    case DepositTx(d) => var (b', r) := DepositOp(b, d); (b', if r.Ok? then Deposited(r.value) else Refused(r.error))
  }

  // ---------------------------------------------------------------------------
  // What every operation keeps
  // ---------------------------------------------------------------------------

  /** Each account's balance is exactly what its rows say, and is never negative. */
  ghost predicate Balanced(b: Book) {
    && (forall a :: a in b.accounts ==>
          b.accounts[a] == DepositTotal(b.deposits, a) + EntryTotal(b.entries, a) && b.accounts[a] >= 0)
    && (forall e :: e in b.entries ==> e.Holder() in b.accounts)
    && (forall d :: d in b.deposits ==> d.holder in b.accounts)
  }

  /** Charges debit, refunds credit, and a refund row stays within the charge it pairs with. */
  ghost predicate Paired(entries: seq<Entry>) {
    && (forall e :: e in entries && e.key.kind == Charge ==> e.delta < 0)
    && (forall e :: e in entries && e.key.kind == Refund ==>
          && 0 < e.delta
          && Find(entries, e.key.(kind := Charge)).Some?
          && e.delta <= -Find(entries, e.key.(kind := Charge)).value.delta)
  }

  ghost predicate BookInv(b: Book) {
    && Balanced(b)
    && UniqueKeys(b.entries)
    && UniqueDigests(b.deposits)
    && Paired(b.entries)
  }

  lemma FindAppend(entries: seq<Entry>, e: Entry, key: OpKey)
    ensures Find(entries + [e], key) == if e.key == key then Some(e) else Find(entries, key)
    ensures SumFor(entries + [e], key) == SumFor(entries, key) + if e.key == key then e.delta else 0
  {
    assert (entries + [e])[..|entries|] == entries;
  }

  lemma {:induction false} SumOfUnique(entries: seq<Entry>, key: OpKey)
    requires UniqueKeys(entries)
    ensures SumFor(entries, key) == match Find(entries, key) case None => 0 case Some(e) => e.delta
  {
    if entries != [] {
      var n := |entries| - 1;
      SumOfUnique(entries[..n], key);
    }
  }

  lemma {:induction false} CreditsAppend(rows: seq<Deposit>, a: Account, deposits: seq<Deposit>)
    requires forall r :: r in rows ==> r.holder == a
    ensures DepositTotal(deposits + rows, a) == DepositTotal(deposits, a) + Credits(rows)
    ensures forall c :: c != a ==> DepositTotal(deposits + rows, c) == DepositTotal(deposits, c)
  {
    if rows == [] {
      assert deposits + rows == deposits;
    } else {
      var n := |rows| - 1;
      CreditsAppend(rows[..n], a, deposits);
      assert (deposits + rows)[..|deposits| + n] == deposits + rows[..n];
      assert rows[n] in rows;
    }
  }

  lemma EnsureAccountKeeps(b: Book, a: Account)
    requires BookInv(b)
    ensures BookInv(EnsureAccount(b, a))
  {
    if a !in b.accounts {
      NoRowsNoTotal(b.entries, b.deposits, a);
    }
  }

  lemma {:induction false} NoRowsNoTotal(entries: seq<Entry>, deposits: seq<Deposit>, a: Account)
    requires forall e :: e in entries ==> e.Holder() != a
    requires forall d :: d in deposits ==> d.holder != a
    ensures EntryTotal(entries, a) == 0 && DepositTotal(deposits, a) == 0
  {
    if entries != [] {
      assert entries[|entries| - 1] in entries;
      NoRowsNoTotal(entries[..|entries| - 1], deposits, a);
    } else if deposits != [] {
      assert deposits[|deposits| - 1] in deposits;
      NoRowsNoTotal(entries, deposits[..|deposits| - 1], a);
    }
  }

  lemma PostKeeps(b: Book, e: Entry)
    requires BookInv(b) && e.Holder() in b.accounts
    requires Find(b.entries, e.key).None?
    requires b.accounts[e.Holder()] + e.delta >= 0
    requires e.key.kind == Charge ==> e.delta < 0
    requires e.key.kind == Refund ==>
               && 0 < e.delta
               && Find(b.entries, e.key.(kind := Charge)).Some?
               && e.delta <= -Find(b.entries, e.key.(kind := Charge)).value.delta
    ensures BookInv(Post(b, e))
  {
    PostUnique(b.entries, e);
    PostPaired(b.entries, e);
    PostBalanced(b, e);
  }

  lemma PostUnique(entries: seq<Entry>, e: Entry)
    requires UniqueKeys(entries) && Find(entries, e.key).None?
    ensures UniqueKeys(entries + [e])
  {
    var all := entries + [e];
    forall i, j | 0 <= i < j < |all| ensures all[i].key != all[j].key {
      if j == |entries| { assert entries[i] in entries; }
    }
  }

  lemma PostPaired(entries: seq<Entry>, e: Entry)
    requires Paired(entries) && Find(entries, e.key).None?
    requires e.key.kind == Charge ==> e.delta < 0
    requires e.key.kind == Refund ==>
               && 0 < e.delta
               && Find(entries, e.key.(kind := Charge)).Some?
               && e.delta <= -Find(entries, e.key.(kind := Charge)).value.delta
    ensures Paired(entries + [e])
  {
    forall k ensures Find(entries + [e], k) == if e.key == k then Some(e) else Find(entries, k) {
      FindAppend(entries, e, k);
    }
  }

  lemma PostBalanced(b: Book, e: Entry)
    requires Balanced(b) && e.Holder() in b.accounts && b.accounts[e.Holder()] + e.delta >= 0
    ensures Balanced(Post(b, e))
  {
    assert (b.entries + [e])[..|b.entries|] == b.entries;
  }

  /** Any charge keeps the book, whatever it answers. */
  lemma ChargeKeeps(b: Book, c: OpArgs)
    requires BookInv(b)
    ensures BookInv(ChargeOp(b, c).0)
  {
    var b1 := EnsureAccount(b, c.Holder());
    EnsureAccountKeeps(b, c.Holder());
    if c.amount > 0 && Find(b1.entries, c.Key(Charge)).None? && b1.accounts[c.Holder()] >= c.amount {
      PostKeeps(b1, Entry(c.user, c.Key(Charge), -c.amount));
    }
  }

  lemma RefundKeeps(b: Book, c: OpArgs)
    requires BookInv(b)
    ensures BookInv(RefundOp(b, c).0)
  {
    if c.amount > 0 {
      EnsureAccountKeeps(b, c.Holder());
      var b1 := EnsureAccount(b, c.Holder());
      SumOfUnique(b1.entries, c.Key(Charge));
      SumOfUnique(b1.entries, c.Key(Refund));
      var e := Entry(c.user, c.Key(Refund), c.amount);
      if RefundOp(b, c).1.Ok? && Find(b1.entries, c.Key(Refund)).None? {
        assert e.key.(kind := Charge) == c.Key(Charge);
        assert e.Holder() == c.Holder();
        PostKeeps(b1, e);
        assert RefundOp(b, c).0 == Post(b1, e);
      } else {
        assert RefundOp(b, c).0 == b1;
      }
    }
  }

  /** Charges and refunds move no balance but their own. */
  lemma OthersUntouched(b: Book, c: OpArgs, a: Account)
    requires a in b.accounts && a != c.Holder()
    ensures a in ChargeOp(b, c).0.accounts && ChargeOp(b, c).0.accounts[a] == b.accounts[a]
    ensures a in RefundOp(b, c).0.accounts && RefundOp(b, c).0.accounts[a] == b.accounts[a]
  {
  }

  /** A charge or refund writes at most its own row: every other key reads as before. */
  lemma FindAfter(b: Book, c: OpArgs, k: OpKey)
    ensures Find(ChargeOp(b, c).0.entries, k) ==
              if k == c.Key(Charge) && ChargeOp(b, c).1.Ok? then Some(ChargeOp(b, c).1.value) else Find(b.entries, k)
    ensures Find(RefundOp(b, c).0.entries, k) ==
              if k == c.Key(Refund) && RefundOp(b, c).1.Ok? then Some(RefundOp(b, c).1.value) else Find(b.entries, k)
  {
    FindAfterCharge(b, c, k);
    FindAfterRefund(b, c, k);
  }

  lemma FindAfterCharge(b: Book, c: OpArgs, k: OpKey)
    ensures Find(ChargeOp(b, c).0.entries, k) ==
              if k == c.Key(Charge) && ChargeOp(b, c).1.Ok? then Some(ChargeOp(b, c).1.value) else Find(b.entries, k)
  {
    FindAppend(b.entries, Entry(c.user, c.Key(Charge), -c.amount), k);
  }

  lemma FindAfterRefund(b: Book, c: OpArgs, k: OpKey)
    ensures Find(RefundOp(b, c).0.entries, k) ==
              if k == c.Key(Refund) && RefundOp(b, c).1.Ok? then Some(RefundOp(b, c).1.value) else Find(b.entries, k)
  {
    FindAppend(b.entries, Entry(c.user, c.Key(Refund), c.amount), k);
  }

  /** A refund succeeds exactly when it repeats an earlier one or fits inside a recorded charge. */
  lemma RefundExactly(b: Book, c: OpArgs)
    requires BookInv(b) && c.amount > 0
    ensures RefundOp(b, c).1.Ok? <==>
            || Find(b.entries, c.Key(Refund)).Some?
            || (Find(b.entries, c.Key(Charge)).Some? && c.amount <= -Find(b.entries, c.Key(Charge)).value.delta)
  {
    SumOfUnique(b.entries, c.Key(Charge));
    SumOfUnique(b.entries, c.Key(Refund));
  }

  /** What an account holds; nothing before it exists. */
  function Balance(b: Book, a: Account): int { if a in b.accounts then b.accounts[a] else 0 }

  /**
   * A charge answers the row it finds; else it succeeds exactly when the balance covers it, and
   * then takes exactly its amount from its own account and leaves one row that says so. Refused,
   * it moves nothing.
   */
  lemma ChargeDoes(b: Book, c: OpArgs)
    ensures var (b', r) := ChargeOp(b, c);
            var h, key := Account(c.user, c.network), OpKey(c.network, c.opType, c.opId, Charge);
            && b'.deposits == b.deposits
            && if c.amount <= 0 then b' == b && r == Err(BadChargeAmount)
               else
                 && h in b'.accounts
                 && if Find(b.entries, key).Some? then
                      r == Ok(Find(b.entries, key).value) && b'.entries == b.entries && b'.accounts == b.accounts[h := Balance(b, h)]
                    else if Balance(b, h) < c.amount then
                      r == Err(InsufficientCredits) && b'.entries == b.entries && b'.accounts == b.accounts[h := Balance(b, h)]
                    else
                      && r == Ok(Entry(c.user, key, -c.amount))
                      && b'.entries == b.entries + [Entry(c.user, key, -c.amount)]
                      && b'.accounts == b.accounts[h := Balance(b, h) - c.amount]
  {
    SameAccount(b.accounts, Account(c.user, c.network));
  }

  lemma SameAccount(accounts: map<Account, int>, h: Account)
    ensures h in accounts ==> accounts[h := accounts[h]] == accounts
  {
  }

  /** A refund answers the row it finds; else it credits exactly its amount when that fits the recorded charge, and says so in one row. */
  lemma RefundDoes(b: Book, c: OpArgs)
    requires BookInv(b) && c.amount > 0
    ensures var (b', r) := RefundOp(b, c);
            var h, net, op, id := Account(c.user, c.network), c.network, c.opType, c.opId;
            var charge, refund := Find(b.entries, OpKey(net, op, id, Charge)), Find(b.entries, OpKey(net, op, id, Refund));
            && b'.deposits == b.deposits
            && if refund.Some? then
                 r == Ok(refund.value) && b'.entries == b.entries && b'.accounts == b.accounts[h := Balance(b, h)]
               else if charge.None? then
                 r == Err(RefundNoMatchingCharge) && b'.entries == b.entries && b'.accounts == b.accounts[h := Balance(b, h)]
               else if c.amount > -charge.value.delta then
                 r == Err(RefundExceedsCharge) && b'.entries == b.entries && b'.accounts == b.accounts[h := Balance(b, h)]
               else
                 && r == Ok(Entry(c.user, OpKey(net, op, id, Refund), c.amount))
                 && b'.entries == b.entries + [Entry(c.user, OpKey(net, op, id, Refund), c.amount)]
                 && b'.accounts == b.accounts[h := Balance(b, h) + c.amount]
  {
    SameAccount(b.accounts, Account(c.user, c.network));
    SumOfUnique(b.entries, c.Key(Charge));
    SumOfUnique(b.entries, c.Key(Refund));
    if Find(b.entries, c.Key(Charge)).Some? { assert Find(b.entries, c.Key(Charge)).value in b.entries; }
  }

  /** The rows go in together exactly when their digests are new and pairwise distinct. */
  lemma {:induction false} InsertableExactly(deposits: seq<Deposit>, rows: seq<Deposit>)
    ensures Insertable(deposits, rows) <==>
              UniqueDigests(rows) && forall i :: 0 <= i < |rows| ==> !Credited(deposits, rows[i].digest)
  {
    if rows != [] {
      var n := |rows| - 1;
      InsertableExactly(deposits, rows[..n]);
      CreditedConcat(deposits, rows[..n], rows[n].digest);
      UniqueLast(rows);
      assert forall i :: 0 <= i < n ==> rows[..n][i] == rows[i];
    }
  }

  lemma UniqueLast(rows: seq<Deposit>)
    requires rows != []
    ensures var n := |rows| - 1; UniqueDigests(rows) <==> UniqueDigests(rows[..n]) && !Credited(rows[..n], rows[n].digest)
  {
    var n := |rows| - 1;
    assert forall i :: 0 <= i < n ==> rows[..n][i] == rows[i];
    if UniqueDigests(rows[..n]) && !Credited(rows[..n], rows[n].digest) {
      forall i, j | 0 <= i < j < |rows| ensures rows[i].digest != rows[j].digest {
        assert rows[..n][i] == rows[i];
      }
    }
  }

  lemma CreditedConcat(a: seq<Deposit>, b: seq<Deposit>, digest: string)
    ensures Credited(a + b, digest) <==> Credited(a, digest) || Credited(b, digest)
  {
    if Credited(a, digest) {
      var i :| 0 <= i < |a| && a[i].digest == digest;
      assert (a + b)[i].digest == digest;
    }
    if Credited(b, digest) {
      var i :| 0 <= i < |b| && b[i].digest == digest;
      assert (a + b)[|a| + i].digest == digest;
    }
  }

  /** The same as one statement about the table that would result. */
  lemma InsertableUnique(deposits: seq<Deposit>, rows: seq<Deposit>)
    requires UniqueDigests(deposits)
    ensures Insertable(deposits, rows) <==> UniqueDigests(deposits + rows)
  {
    InsertableExactly(deposits, rows);
    var n, all := |deposits|, deposits + rows;
    if UniqueDigests(all) {
      forall i, j | 0 <= i < j < |rows| ensures rows[i].digest != rows[j].digest {
        assert all[n + i] == rows[i] && all[n + j] == rows[j];
      }
      forall i | 0 <= i < |rows| ensures !Credited(deposits, rows[i].digest) {
        assert all[n + i] == rows[i];
        forall k | 0 <= k < n ensures deposits[k].digest != rows[i].digest { assert all[k] == deposits[k]; }
      }
    }
  }

  lemma InsertStep(deposits: seq<Deposit>, rows: seq<Deposit>, i: nat)
    requires i < |rows|
    ensures Insertable(deposits, rows[..i + 1]) <==>
              Insertable(deposits, rows[..i]) && !Credited(deposits + rows[..i], rows[i].digest)
    ensures deposits + rows[..i + 1] == deposits + rows[..i] + [rows[i]]
    ensures Credits(rows[..i + 1]) == Credits(rows[..i]) + rows[i].credits
  {
    assert rows[..i + 1][..i] == rows[..i];
  }

  lemma CreditKeeps(b: Book, a: Account, rows: seq<Deposit>)
    requires BookInv(b) && a in b.accounts
    requires forall r :: r in rows ==> r.holder == a
    requires UniqueDigests(b.deposits + rows)
    ensures BookInv(b.(deposits := b.deposits + rows, accounts := b.accounts[a := b.accounts[a] + Credits(rows)]))
  {
    CreditBalanced(b, a, rows);
  }

  lemma ConflictRefuses(deposits: seq<Deposit>, rows: seq<Deposit>, i: nat)
    requires i < |rows| && Credited(deposits + rows[..i], rows[i].digest)
    ensures !Insertable(deposits, rows)
  {
    InsertStep(deposits, rows, i);
    if Insertable(deposits, rows) {
      InsertablePrefix(deposits, rows, i + 1);
    }
  }

  lemma CreditBalanced(b: Book, a: Account, rows: seq<Deposit>)
    requires Balanced(b) && a in b.accounts
    requires forall r :: r in rows ==> r.holder == a
    ensures Balanced(b.(deposits := b.deposits + rows, accounts := b.accounts[a := b.accounts[a] + Credits(rows)]))
  {
    CreditsAppend(rows, a, b.deposits);
    assert forall d :: d in b.deposits + rows ==> d in b.deposits || d in rows;
  }

  /** A deposit keeps the book, whether it is credited or rolled back. */
  lemma DepositKeeps(b: Book, d: DepositArgs)
    requires BookInv(b)
    ensures BookInv(DepositOp(b, d).0)
  {
    EnsureAccountKeeps(b, d.holder);
    var b1 := EnsureAccount(b, d.holder);
    var rows := Rows(d, |d.coins|);
    if Insertable(b1.deposits, rows) {
      InsertableUnique(b1.deposits, rows);
      CreditKeeps(b1, d.holder, rows);
    }
  }

  /** Charging and then refunding the same amount under one fresh key restores every balance. */
  lemma RefundUndoesCharge(b: Book, c: OpArgs)
    requires UniqueKeys(b.entries) && c.Holder() in b.accounts
    requires Find(b.entries, c.Key(Charge)).None? && Find(b.entries, c.Key(Refund)).None?
    requires ChargeOp(b, c).1.Ok?
    ensures RefundOp(ChargeOp(b, c).0, c).1.Ok?
    ensures RefundOp(ChargeOp(b, c).0, c).0.accounts == b.accounts
  {
    var e := Entry(c.user, c.Key(Charge), -c.amount);
    FirstCharge(b, c);
    FindAppend(b.entries, e, c.Key(Refund));
    FindAppend(b.entries, e, c.Key(Charge));
    SumOfUnique(b.entries, c.Key(Charge));
    SumOfUnique(b.entries, c.Key(Refund));
    FirstRefund(Post(b, e), c);
  }

  lemma FirstCharge(b: Book, c: OpArgs)
    requires c.Holder() in b.accounts && Find(b.entries, c.Key(Charge)).None? && ChargeOp(b, c).1.Ok?
    ensures c.amount > 0
    ensures var e := Entry(c.user, c.Key(Charge), -c.amount); ChargeOp(b, c) == (Post(b, e), Ok(e))
  {
  }

  lemma FirstRefund(b: Book, c: OpArgs)
    requires c.Holder() in b.accounts && Find(b.entries, c.Key(Refund)).None?
    requires 0 < c.amount <= -SumFor(b.entries, c.Key(Charge)) - SumFor(b.entries, c.Key(Refund))
    requires SumFor(b.entries, c.Key(Charge)) != 0
    ensures var e := Entry(c.user, c.Key(Refund), c.amount); RefundOp(b, c) == (Post(b, e), Ok(e))
  {
  }

  lemma SerialKeeps(b: Book, op: Op)
    requires BookInv(b)
    ensures BookInv(Serial(b, op).0)
  {
    match op
    case Open(a) => EnsureAccountKeeps(b, a);
    case ChargeTx(c) => ChargeKeeps(b, c);
    case RefundTx(c) => RefundKeeps(b, c);
    case DepositTx(d) => DepositKeeps(b, d);
  }
}
