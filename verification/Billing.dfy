/** The billing service: each call taken on its own, statement by statement. */
module Billing {
  import opened Common
  import opened Ledger

  /** What recordDeposit answers: whether the digest was already credited, and the balance after. */
  datatype Receipt = Receipt(duplicate: bool, balance: int)

  /** A declared deposit, with what verification and the two price reads answered. */
  datatype Declared = Declared(
    holder: Account,
    digest: string,
    verified: Result<seq<Coin>, BillingError>,
    quotes: seq<nat>,
    minimum: nat)
  {
    function Args(): DepositArgs
      requires verified.Ok?
    {
      DepositArgs(holder, digest, verified.value)
    }
  }

  function FindDeposit(deposits: seq<Deposit>, digest: string): (r: Option<Deposit>)
    ensures r.Some? ==> r.value in deposits && r.value.digest == digest
    ensures r.Some? <==> Credited(deposits, digest)
  {
    if deposits == [] then None
    else
      var last := deposits[|deposits| - 1];
      if last.digest == digest then Some(last) else FindDeposit(deposits[..|deposits| - 1], digest)
  }

  function Sum(quotes: seq<nat>): nat {
    if quotes == [] then 0 else Sum(quotes[..|quotes| - 1]) + quotes[|quotes| - 1]
  }

  function RecordOp(b: Book, d: Declared): (Book, Result<Receipt, BillingError>) {
    match FindDeposit(b.deposits, d.digest)
    case Some(prior) =>
      if prior.holder != d.holder then (b, Err(DepositTaken))
      else
        var b := EnsureAccount(b, d.holder);
        (b, Ok(Receipt(true, b.accounts[d.holder])))
    case None =>
      var b := EnsureAccount(b, d.holder);
      match d.verified
      case Err(e) => (b, Err(e))
      case Ok(_) =>
        if Sum(d.quotes) < d.minimum then (b, Err(DepositBelowMinimum))
        else
          match DepositOp(b, d.Args())
          case (b', Err(e)) => (b', Err(e))
          case (b', Ok(_)) => (b', Ok(Receipt(false, b'.accounts[d.holder])))
  }

  /** The rows a query on one key returns, in table order. */
  function Matching(entries: seq<Entry>, key: OpKey): (rows: seq<Entry>)
    ensures forall r :: r in rows ==> r.key == key
    ensures SumFor(rows, key) == SumFor(entries, key)
  {
    if entries == [] then []
    else
      var last := entries[|entries| - 1];
      var rest := Matching(entries[..|entries| - 1], key);
      if last.key == key then
        assert (rest + [last])[..|rest|] == rest;
        rest + [last]
      else rest
  }

  /** The summing loop over the rows of one key. */
  method SumRows(rows: seq<Entry>, key: OpKey) returns (total: int)
    requires forall r :: r in rows ==> r.key == key
    ensures total == SumFor(rows, key)
  {
    total := 0;
    for i := 0 to |rows|
      invariant total == SumFor(rows[..i], key)
    {
      assert rows[..i + 1][..i] == rows[..i];
      total := total + rows[i].delta;
    }
    assert rows[..|rows|] == rows;
  }

  class BillingService {
    var accounts: map<Account, int>
    var entries: seq<Entry>
    var deposits: seq<Deposit>

    constructor ()
      ensures View() == Book(map[], [], [])
    {
      accounts, entries, deposits := map[], [], [];
    }

    function View(): Book
      reads this
    {
      Book(accounts, entries, deposits)
    }

    method GetOrCreateAccount(a: Account) returns (balance: int)
      modifies this`accounts
      ensures View() == EnsureAccount(old(View()), a)
      ensures a in accounts && balance == accounts[a]
    {
      if a !in accounts {
        accounts := accounts[a := 0];
      }
      balance := accounts[a];
    }

    method ChargeCredits(c: OpArgs) returns (r: Result<Entry, BillingError>)
      modifies this
      ensures (View(), r) == ChargeOp(old(View()), c)
    {
      if c.amount <= 0 {
        return Err(BadChargeAmount);
      }
      var balance := GetOrCreateAccount(c.Holder());
      var existing := Find(entries, c.Key(Charge));
      if existing.Some? {
        return Ok(existing.value);
      }
      if balance < c.amount {
        return Err(InsufficientCredits);
      }
      accounts := accounts[c.Holder() := accounts[c.Holder()] - c.amount];
      var inserted := Entry(c.user, c.Key(Charge), -c.amount);
      entries := entries + [inserted];
      return Ok(inserted);
    }

    method RefundCredits(c: OpArgs) returns (r: Result<Entry, BillingError>)
      modifies this
      ensures (View(), r) == RefundOp(old(View()), c)
    {
      if c.amount <= 0 {
        return Err(BadRefundAmount);
      }
      var _ := GetOrCreateAccount(c.Holder());
      var existing := Find(entries, c.Key(Refund));
      if existing.Some? {
        return Ok(existing.value);
      }
      var chargeRows := Matching(entries, c.Key(Charge));
      var charged := SumRows(chargeRows, c.Key(Charge));
      var chargedTotal := -charged;
      if chargedTotal == 0 {
        return Err(RefundNoMatchingCharge);
      }
      var priorRows := Matching(entries, c.Key(Refund));
      var priorRefunded := SumRows(priorRows, c.Key(Refund));
      if c.amount > chargedTotal - priorRefunded {
        return Err(RefundExceedsCharge);
      }
      accounts := accounts[c.Holder() := accounts[c.Holder()] + c.amount];
      var inserted := Entry(c.user, c.Key(Refund), c.amount);
      entries := entries + [inserted];
      return Ok(inserted);
    }

    /** The crediting transaction: one row per coin; the first conflict rolls every row back. */
    method CreditRows(d: DepositArgs) returns (ok: bool)
      requires d.holder in accounts
      modifies this`accounts, this`deposits
      ensures View() == DepositOp(old(View()), d).0 && ok == DepositOp(old(View()), d).1.Ok?
    {
      var begin := deposits;
      ghost var rows := Rows(d, |d.coins|);
      var totalCredits := 0;
      for i := 0 to |d.coins|
        invariant accounts == old(accounts) && entries == old(entries)
        invariant deposits == begin + rows[..i]
        invariant totalCredits == Credits(rows[..i])
        invariant Insertable(begin, rows[..i])
      {
        var row := Deposit(d.holder, RowDigest(d, d.coins[i].coinType), d.coins[i].credits);
        InsertStep(begin, rows, i);
        if FindDeposit(deposits, row.digest).Some? {
          ConflictRefuses(begin, rows, i);
          deposits := begin;
          return false;
        }
        deposits := deposits + [row];
        totalCredits := totalCredits + row.credits;
      }
      assert rows[..|d.coins|] == rows;
      accounts := accounts[d.holder := accounts[d.holder] + totalCredits];
      return true;
    }

    method RecordDeposit(d: Declared) returns (r: Result<Receipt, BillingError>)
      modifies this
      ensures (View(), r) == RecordOp(old(View()), d)
    {
      var prior := FindDeposit(deposits, d.digest);
      if prior.Some? {
        if prior.value.holder != d.holder {
          return Err(DepositTaken);
        }
        var balance := GetOrCreateAccount(d.holder);
        return Ok(Receipt(true, balance));
      }
      var _ := GetOrCreateAccount(d.holder);
      if d.verified.Err? {
        return Err(d.verified.error);
      }
      var preTotal := 0;
      for i := 0 to |d.quotes|
        invariant preTotal == Sum(d.quotes[..i])
      {
        assert d.quotes[..i + 1][..i] == d.quotes[..i];
        preTotal := preTotal + d.quotes[i];
      }
      assert d.quotes[..|d.quotes|] == d.quotes;
      if preTotal < d.minimum {
        return Err(DepositBelowMinimum);
      }

      var credited := CreditRows(d.Args());
      if !credited {
        return Err(UniqueViolation);
      }
      return Ok(Receipt(false, accounts[d.holder]));
    }

    /**
     * Charge, run the wrapped operation, refund if it threw. `works` is whether it returned, its
     * own effects outside the ledger; `refundWorks` is whether the refund got through. A refund
     * that fails is logged, and the user stays charged.
     */
    method ChargeWithRefund(c: OpArgs, works: bool, refundWorks: bool) returns (ok: bool)
      requires UniqueKeys(entries)
      requires Find(entries, c.Key(Charge)).None? && Find(entries, c.Key(Refund)).None?
      modifies this
      ensures ok <==> works && ChargeOp(old(View()), c).1.Ok?
      ensures ok || !refundWorks || ChargeOp(old(View()), c).1.Err? ==> View() == ChargeOp(old(View()), c).0
      ensures !ok && refundWorks ==> accounts == old(if c.amount <= 0 then View() else EnsureAccount(View(), c.Holder())).accounts
    {
      ghost var before := EnsureAccount(View(), c.Holder());
      var charged := ChargeCredits(c);
      if charged.Err? {
        return false;
      }
      if works {
        return true;
      }
      RefundUndoesCharge(before, c);
      assert ChargeOp(before, c) == ChargeOp(old(View()), c);
      if refundWorks {
        var _ := RefundCredits(c);
      }
      return false;
    }
  }

  // ---------------------------------------------------------------------------
  // Deposits are credited at most once, and exactly when their row digests are free
  // ---------------------------------------------------------------------------

  lemma RecordKeeps(b: Book, d: Declared)
    requires BookInv(b)
    ensures BookInv(RecordOp(b, d).0)
  {
    EnsureAccountKeeps(b, d.holder);
    if d.verified.Ok? {
      DepositKeeps(EnsureAccount(b, d.holder), d.Args());
    }
    RecordShape(b, d);
  }

  lemma RecordShape(b: Book, d: Declared)
    ensures || RecordOp(b, d).0 == b
            || RecordOp(b, d).0 == EnsureAccount(b, d.holder)
            || (d.verified.Ok? && RecordOp(b, d).0 == DepositOp(EnsureAccount(b, d.holder), d.Args()).0)
  {
  }

  /** Some row that the declaration would insert carries a digest already credited. */
  predicate SomeRowCredited(deposits: seq<Deposit>, d: DepositArgs) {
    exists i :: 0 <= i < |d.coins| && Credited(deposits, RowDigest(d, d.coins[i].coinType))
  }

  /** The digest a coin's row is stored under: the transaction's, with the last eight characters of the type if it moved several coins. */
  function StoredDigest(d: Declared, coinType: string): string
    requires d.verified.Ok?
  {
    if |d.verified.value| == 1 then d.digest
    else d.digest + ":" + (if |coinType| <= 8 then coinType else coinType[|coinType| - 8..])
  }

  /** A stored digest: the same account is told its balance, any other that the deposit is taken. Nothing moves. */
  lemma RepeatDoes(b: Book, d: Declared)
    requires Credited(b.deposits, d.digest)
    ensures exists prior :: prior in b.deposits && prior.digest == d.digest
              && RecordOp(b, d) ==
                   if prior.holder != d.holder then (b, Err(DepositTaken))
                   else (b.(accounts := b.accounts[d.holder := Balance(b, d.holder)]), Ok(Receipt(true, Balance(b, d.holder))))
  {
    SameAccount(b.accounts, d.holder);
    var prior := FindDeposit(b.deposits, d.digest).value;
    assert prior in b.deposits && prior.digest == d.digest;
  }

  /** A new digest that does not verify, or falls short: its error, and nothing moves. */
  lemma RefusalDoes(b: Book, d: Declared)
    requires !Credited(b.deposits, d.digest) && (d.verified.Err? || Sum(d.quotes) < d.minimum)
    ensures RecordOp(b, d) ==
              (b.(accounts := b.accounts[d.holder := Balance(b, d.holder)]),
               Err(if d.verified.Err? then d.verified.error else DepositBelowMinimum))
  {
    SameAccount(b.accounts, d.holder);
  }

  /** A row of the declared coins is stored already, or two of them would be stored alike. */
  ghost predicate Collides(deposits: seq<Deposit>, d: Declared)
    requires d.verified.Ok?
  {
    var coins := d.verified.value;
    || (exists i :: 0 <= i < |coins| && Credited(deposits, StoredDigest(d, coins[i].coinType)))
    || (exists i, j :: 0 <= i < j < |coins| && StoredDigest(d, coins[i].coinType) == StoredDigest(d, coins[j].coinType))
  }

  /** One row for each coin, in order, with its credits. */
  ghost predicate RowsOf(rows: seq<Deposit>, d: Declared)
    requires d.verified.Ok?
  {
    var coins := d.verified.value;
    && |rows| == |coins|
    && forall i :: 0 <= i < |coins| ==> rows[i] == Deposit(d.holder, StoredDigest(d, coins[i].coinType), coins[i].credits)
  }

  lemma RowsCollide(deposits: seq<Deposit>, d: Declared, rows: seq<Deposit>)
    requires d.verified.Ok? && RowsOf(rows, d)
    ensures Insertable(deposits, rows) <==> !Collides(deposits, d)
  {
    InsertableExactly(deposits, rows);
    if exists i :: 0 <= i < |rows| && Credited(deposits, rows[i].digest) {
      var i :| 0 <= i < |rows| && Credited(deposits, rows[i].digest);
      assert Credited(deposits, StoredDigest(d, d.verified.value[i].coinType));
    }
    if !UniqueDigests(rows) {
      var i, j :| 0 <= i < j < |rows| && rows[i].digest == rows[j].digest;
      assert StoredDigest(d, d.verified.value[i].coinType) == StoredDigest(d, d.verified.value[j].coinType);
    }
    if i, j :| 0 <= i < j < |rows| && StoredDigest(d, d.verified.value[i].coinType) == StoredDigest(d, d.verified.value[j].coinType) {
      assert rows[i].digest == rows[j].digest;
    }
  }

  /** A new digest, verified and large enough: refused if its rows collide, else all of them inserted and their sum credited. */
  lemma CreditDoes(b: Book, d: Declared) returns (rows: seq<Deposit>)
    requires !Credited(b.deposits, d.digest) && d.verified.Ok? && Sum(d.quotes) >= d.minimum
    ensures RowsOf(rows, d)
    ensures var held := Balance(b, d.holder);
            RecordOp(b, d) ==
              if Collides(b.deposits, d) then (b.(accounts := b.accounts[d.holder := held]), Err(UniqueViolation))
              else (b.(deposits := b.deposits + rows, accounts := b.accounts[d.holder := held + Credits(rows)]),
                    Ok(Receipt(false, held + Credits(rows))))
  {
    rows := Rows(d.Args(), |d.verified.value|);
    RowsMade(d);
    RowsCollide(b.deposits, d, rows);
    if Insertable(b.deposits, rows) {
      CreditWrites(b, d, rows);
    } else {
      CreditCollides(b, d);
    }
  }

  lemma RowsMade(d: Declared)
    requires d.verified.Ok?
    ensures RowsOf(Rows(d.Args(), |d.verified.value|), d)
  {
  }

  lemma CreditWrites(b: Book, d: Declared, rows: seq<Deposit>)
    requires !Credited(b.deposits, d.digest) && d.verified.Ok? && Sum(d.quotes) >= d.minimum
    requires rows == Rows(d.Args(), |d.verified.value|) && Insertable(b.deposits, rows)
    ensures var credited := Balance(b, d.holder) + Credits(rows);
            && RecordOp(b, d).0.deposits == b.deposits + rows
            && RecordOp(b, d).0.accounts == b.accounts[d.holder := credited]
            && RecordOp(b, d).0.entries == b.entries
            && RecordOp(b, d).1 == Ok(Receipt(false, credited))
  {
    CreditShape(b, d);
    EnsuredWrite(b, d.holder, Balance(b, d.holder) + Credits(rows));
  }

  lemma EnsuredWrite(b: Book, h: Account, balance: int)
    ensures var b1 := EnsureAccount(b, h);
            b1.accounts[h] == Balance(b, h) && b1.entries == b.entries && b1.accounts[h := balance] == b.accounts[h := balance]
  {
    EnsuredAccount(b, h, balance);
  }

  lemma CreditCollides(b: Book, d: Declared)
    requires !Credited(b.deposits, d.digest) && d.verified.Ok? && Sum(d.quotes) >= d.minimum
    requires !Insertable(b.deposits, Rows(d.Args(), |d.verified.value|))
    ensures RecordOp(b, d) == (b.(accounts := b.accounts[d.holder := Balance(b, d.holder)]), Err(UniqueViolation))
  {
    CreditShape(b, d);
    EnsuredAccount(b, d.holder, 0);
  }

  lemma EnsuredAccount(b: Book, h: Account, balance: int)
    ensures var b1 := EnsureAccount(b, h);
            && b1 == b.(accounts := b.accounts[h := Balance(b, h)])
            && b1.accounts[h := balance] == b.accounts[h := balance]
  {
    SameAccount(b.accounts, h);
  }

  lemma CreditShape(b: Book, d: Declared)
    requires !Credited(b.deposits, d.digest) && d.verified.Ok? && Sum(d.quotes) >= d.minimum
    ensures var b1, rows := EnsureAccount(b, d.holder), Rows(d.Args(), |d.verified.value|);
            if !Insertable(b.deposits, rows) then RecordOp(b, d) == (b1, Err(UniqueViolation))
            else
              && RecordOp(b, d).0.deposits == b.deposits + rows
              && RecordOp(b, d).0.accounts == b1.accounts[d.holder := b1.accounts[d.holder] + Credits(rows)]
              && RecordOp(b, d).0.entries == b1.entries
              && RecordOp(b, d).1 == Ok(Receipt(false, b1.accounts[d.holder] + Credits(rows)))
  {
  }

  /**
   * When a declaration moves nothing on an account that exists: its bare digest is stored, or
   * verification refuses it, finds no coin or too little, or one of its rows is already credited,
   * or two of its own coins end alike.
   */
  ghost predicate MovesNothing(b: Book, d: Declared) {
    || Credited(b.deposits, d.digest)
    || d.verified.Err?
    || Sum(d.quotes) < d.minimum
    || d.verified.value == []
    || SomeRowCredited(b.deposits, d.Args())
    || (|d.verified.value| != 1 && !TailsDistinct(d.verified.value))
  }

  lemma InsertableArgs(deposits: seq<Deposit>, d: DepositArgs)
    ensures Insertable(deposits, Rows(d, |d.coins|)) <==>
              !SomeRowCredited(deposits, d) && (|d.coins| == 1 || TailsDistinct(d.coins))
  {
    var rows := Rows(d, |d.coins|);
    InsertableExactly(deposits, rows);
    RowsDistinctWhenTailsDiffer(d);
    if SomeRowCredited(deposits, d) {
      var i :| 0 <= i < |d.coins| && Credited(deposits, RowDigest(d, d.coins[i].coinType));
      assert Credited(deposits, rows[i].digest);
    }
  }

  lemma DeclarationMovesNothingExactly(b: Book, d: Declared)
    requires d.holder in b.accounts
    ensures RecordOp(b, d).0 == b <==> MovesNothing(b, d)
  {
    if d.verified.Ok? {
      InsertableArgs(b.deposits, d.Args());
      var rows := Rows(d.Args(), |d.verified.value|);
      assert rows != [] ==> |b.deposits + rows| != |b.deposits|;
      assert b.deposits + [] == b.deposits;
    }
  }

  /** Some coin of the one and some coin of the other end alike. */
  predicate CommonTail(some: seq<Coin>, others: seq<Coin>) {
    exists i, j :: 0 <= i < |some| && 0 <= j < |others| && Tail(some[i].coinType) == Tail(others[j].coinType)
  }

  /** When declaring `d` and then `again` under the same digest moves nothing the second time. */
  ghost predicate ReplayMovesNothing(b: Book, d: Declared, again: Declared) {
    || Credited(b.deposits, d.digest)
    || (d.verified.Ok? && |d.verified.value| == 1)
    || again.verified.Err?
    || Sum(again.quotes) < again.minimum
    || again.verified.value == []
    || SomeRowCredited(b.deposits, again.Args())
    || (|again.verified.value| != 1 &&
        (!TailsDistinct(again.verified.value) || (d.verified.Ok? && CommonTail(d.verified.value, again.verified.value))))
  }

  lemma SuffixedRowsMatch(d: DepositArgs, e: DepositArgs, ct: string)
    requires |d.coins| != 1 && |e.coins| != 1 && d.digest == e.digest
    ensures Credited(Rows(d, |d.coins|), RowDigest(e, ct)) <==>
              exists j :: 0 <= j < |d.coins| && Tail(d.coins[j].coinType) == Tail(ct)
  {
    var rows := Rows(d, |d.coins|);
    forall j | 0 <= j < |d.coins|
      ensures rows[j].digest == RowDigest(e, ct) <==> Tail(d.coins[j].coinType) == Tail(ct)
    {
      SuffixInjective(d.digest, Tail(d.coins[j].coinType), Tail(ct));
    }
    if j :| 0 <= j < |d.coins| && Tail(d.coins[j].coinType) == Tail(ct) {
      assert rows[j].digest == RowDigest(e, ct);
    }
  }

  /** Once the rows of `d` are in, those of `e` meet them exactly where two coins end alike. */
  lemma RowsMeet(deposits: seq<Deposit>, d: DepositArgs, e: DepositArgs)
    requires |d.coins| != 1 && |e.coins| != 1 && d.digest == e.digest
    ensures SomeRowCredited(deposits + Rows(d, |d.coins|), e) <==> SomeRowCredited(deposits, e) || CommonTail(d.coins, e.coins)
  {
    var rows := Rows(d, |d.coins|);
    forall i | 0 <= i < |e.coins|
      ensures Credited(deposits + rows, RowDigest(e, e.coins[i].coinType)) <==>
                || Credited(deposits, RowDigest(e, e.coins[i].coinType))
                || exists j :: 0 <= j < |d.coins| && Tail(d.coins[j].coinType) == Tail(e.coins[i].coinType)
    {
      CreditedConcat(deposits, rows, RowDigest(e, e.coins[i].coinType));
      SuffixedRowsMatch(d, e, e.coins[i].coinType);
    }
  }

  /** A credited deposit stores its bare digest exactly when it was one coin. */
  lemma BareDigestStored(b: Book, d: Declared)
    requires !Credited(b.deposits, d.digest) && RecordOp(b, d).1.Ok?
    ensures d.verified.Ok?
    ensures Credited(RecordOp(b, d).0.deposits, d.digest) <==> |d.verified.value| == 1
  {
    RecordedRows(b, d);
    var rows := Rows(d.Args(), |d.verified.value|);
    CreditedConcat(b.deposits, rows, d.digest);
    if |d.verified.value| == 1 {
      assert rows[0].digest == d.digest;
    } else {
      SuffixedOnly(b.deposits, d.Args());
    }
  }

  /**
   * Declaring a credited deposit again, whatever it verifies to by then, moves nothing exactly
   * when it was credited as one coin, or the new verification is refused or falls short, or a row
   * it now asks for is taken: by an earlier deposit, or because it is several coins again and one
   * of them ends like one credited.
   */
  lemma ReplayMovesNothingExactly(b: Book, d: Declared, again: Declared)
    requires RecordOp(b, d).1.Ok?
    requires again.holder == d.holder && again.digest == d.digest
    ensures RecordOp(RecordOp(b, d).0, again).0 == RecordOp(b, d).0 <==> ReplayMovesNothing(b, d, again)
  {
    DeclarationMovesNothingExactly(RecordOp(b, d).0, again);
    ReplayCondition(b, d, again);
  }

  lemma ReplayCondition(b: Book, d: Declared, again: Declared)
    requires RecordOp(b, d).1.Ok? && again.digest == d.digest
    ensures MovesNothing(RecordOp(b, d).0, again) <==> ReplayMovesNothing(b, d, again)
  {
    if !Credited(b.deposits, d.digest) {
      BareDigestStored(b, d);
      if again.verified.Ok? && |d.verified.value| != 1 {
        RecordedRows(b, d);
        if |again.verified.value| == 1 {
          assert RowDigest(again.Args(), again.verified.value[0].coinType) == d.digest;
        } else {
          RowsMeet(b.deposits, d.Args(), again.Args());
        }
      }
    }
  }

  /**
   * A transaction that pays two users: after the first has declared it, the second is credited
   * exactly when the first was credited as several coins, and the second is one coin, or several
   * that end unlike each other and unlike the first's.
   */
  lemma SecondPayeeCreditedExactly(b: Book, d: Declared, other: Declared)
    requires !Credited(b.deposits, d.digest) && RecordOp(b, d).1.Ok? && d.verified.Ok?
    requires other.holder != d.holder && other.digest == d.digest
    requires other.verified.Ok? && other.verified.value != [] && Sum(other.quotes) >= other.minimum
    requires !SomeRowCredited(b.deposits, other.Args())
    ensures RecordOp(RecordOp(b, d).0, other).1.Ok? <==>
              && |d.verified.value| != 1
              && (|other.verified.value| == 1 || (TailsDistinct(other.verified.value) && !CommonTail(d.verified.value, other.verified.value)))
    ensures |d.verified.value| == 1 ==> RecordOp(RecordOp(b, d).0, other) == (RecordOp(b, d).0, Err(DepositTaken))
  {
    var b' := RecordOp(b, d).0;
    BareDigestStored(b, d);
    RecordedRows(b, d);
    if |d.verified.value| == 1 {
      var found := FindDeposit(b'.deposits, d.digest).value;
      StoredByFirst(b.deposits, Rows(d.Args(), 1), found);
    } else {
      InsertableArgs(b'.deposits, other.Args());
      ReplayCondition(b, d, other);
      assert MovesNothing(b', other) <==>
               SomeRowCredited(b'.deposits, other.Args()) || (|other.verified.value| != 1 && !TailsDistinct(other.verified.value));
    }
  }

  lemma StoredByFirst(deposits: seq<Deposit>, rows: seq<Deposit>, row: Deposit)
    requires row in deposits + rows
    ensures Credited(deposits, row.digest) || row in rows
  {
    if row in deposits {
      var i :| 0 <= i < |deposits| && deposits[i] == row;
      assert Credited(deposits, row.digest);
    }
  }

  /** A digest taken by another account stays taken, however the table grows. */
  lemma TakenForGood(b: Book, later: Book, d: Declared)
    requires Credited(b.deposits, d.digest) && RecordOp(b, d).1 == Err(DepositTaken)
    requires b.deposits <= later.deposits && UniqueDigests(later.deposits)
    ensures RecordOp(later, d) == (later, Err(DepositTaken))
  {
    var prior := FindDeposit(b.deposits, d.digest);
    var i :| 0 <= i < |b.deposits| && b.deposits[i] == prior.value;
    assert later.deposits[i] == prior.value;
    assert Credited(later.deposits, d.digest);
    var found := FindDeposit(later.deposits, d.digest).value;
    var j :| 0 <= j < |later.deposits| && later.deposits[j] == found;
    assert i == j;
  }

  /** With the coins it was first credited for, in whatever order and at whatever price, a replay moves nothing. */
  lemma SameCoinsReplayCreditsNothing(b: Book, d: Declared, again: Declared)
    requires RecordOp(b, d).1.Ok?
    requires again.holder == d.holder && again.digest == d.digest
    requires d.verified.Ok? && d.verified.value != []
    requires again.verified.Ok? ==>
               && |again.verified.value| == |d.verified.value|
               && exists i :: 0 <= i < |again.verified.value| && again.verified.value[i].coinType == d.verified.value[0].coinType
    ensures RecordOp(RecordOp(b, d).0, again).0 == RecordOp(b, d).0
  {
    var b1, b2 := EnsureAccount(b, d.holder), RecordOp(b, d).0;
    if FindDeposit(b.deposits, d.digest).None? && again.verified.Ok? {
      var rows := Rows(d.Args(), |d.verified.value|);
      var i :| 0 <= i < |again.verified.value| && again.verified.value[i].coinType == d.verified.value[0].coinType;
      assert b2.deposits == b1.deposits + rows;
      assert b2.deposits[|b1.deposits|] == rows[0];
      assert rows[0].digest == RowDigest(again.Args(), again.verified.value[i].coinType);
    }
    ReplayMovesNothingExactly(b, d, again);
  }

  /**
   * A deposit credited as several coins is stored only under suffixed digests. If it later
   * verifies to one of them alone, because the other coins are no longer accepted, it is credited
   * again under its bare digest.
   */
  lemma ReplayAsOneCoinCreditsAgain(b: Book, d: Declared, again: Declared, k: nat)
    requires !Credited(b.deposits, d.digest) && RecordOp(b, d).1.Ok? && d.verified.Ok? && |d.verified.value| > 1
    requires again.holder == d.holder && again.digest == d.digest
    requires k < |d.verified.value| && again.verified == Ok([d.verified.value[k]]) && Sum(again.quotes) >= again.minimum
    ensures var b' := RecordOp(b, d).0;
            && d.holder in b'.accounts
            && RecordOp(b', again).1 == Ok(Receipt(false, b'.accounts[d.holder] + d.verified.value[k].credits))
            && d.holder in RecordOp(b', again).0.accounts
            && RecordOp(b', again).0.accounts[d.holder] == b'.accounts[d.holder] + d.verified.value[k].credits
  {
    SuffixedOnly(b.deposits, d.Args());
    RecordedRows(b, d);
    OneCoinCredits(RecordOp(b, d).0, again, d.verified.value[k]);
  }

  lemma RecordedRows(b: Book, d: Declared)
    requires !Credited(b.deposits, d.digest) && RecordOp(b, d).1.Ok?
    ensures d.verified.Ok? && d.holder in RecordOp(b, d).0.accounts
    ensures RecordOp(b, d).0.deposits == b.deposits + Rows(d.Args(), |d.verified.value|)
  {
  }

  /** A declaration that verifies to one coin, worth enough, under a digest not stored: one row, and the balance up by its credits. */
  lemma OneCoinCredits(b: Book, d: Declared, coin: Coin)
    requires d.holder in b.accounts && !Credited(b.deposits, d.digest)
    requires d.verified == Ok([coin]) && Sum(d.quotes) >= d.minimum
    ensures RecordOp(b, d) ==
              (b.(deposits := b.deposits + [Deposit(d.holder, d.digest, coin.credits)],
                  accounts := b.accounts[d.holder := b.accounts[d.holder] + coin.credits]),
               Ok(Receipt(false, b.accounts[d.holder] + coin.credits)))
  {
    var row := Deposit(d.holder, d.digest, coin.credits);
    assert Rows(d.Args(), 1) == [row];
    assert [row][..0] == [] && b.deposits + [] == b.deposits;
    assert Insertable(b.deposits, [row]);
    assert Credits([row]) == coin.credits;
  }

  lemma SuffixedOnly(deposits: seq<Deposit>, d: DepositArgs)
    requires |d.coins| != 1 && !Credited(deposits, d.digest)
    ensures !Credited(deposits + Rows(d, |d.coins|), d.digest)
  {
    var rows := Rows(d, |d.coins|);
    CreditedConcat(deposits, rows, d.digest);
    forall i | 0 <= i < |rows| ensures rows[i].digest != d.digest {
      assert |rows[i].digest| > |d.digest|;
    }
  }

  predicate TailsDistinct(coins: seq<Coin>) {
    forall i, j :: 0 <= i < j < |coins| ==> Tail(coins[i].coinType) != Tail(coins[j].coinType)
  }

  lemma SuffixInjective(digest: string, s: string, t: string)
    ensures digest + ":" + s == digest + ":" + t <==> s == t
  {
    if digest + ":" + s == digest + ":" + t {
      assert (digest + ":" + s)[|digest| + 1..] == s;
      assert (digest + ":" + t)[|digest| + 1..] == t;
    }
  }

  /**
   * The per-row digests keep only the last eight characters of a coin type. So a verified
   * deposit with unused digests is credited exactly when it moved one coin or when those
   * tails differ: two coins with one tail are refused forever.
   */
  lemma CreditedExactlyWhenTailsDiffer(b: Book, d: Declared)
    requires UniqueDigests(b.deposits)
    requires d.verified.Ok? && Sum(d.quotes) >= d.minimum
    requires !Credited(b.deposits, d.digest)
    requires forall i :: 0 <= i < |d.verified.value| ==> !Credited(b.deposits, RowDigest(d.Args(), d.verified.value[i].coinType))
    ensures RecordOp(b, d).1.Ok? <==> |d.verified.value| == 1 || TailsDistinct(d.verified.value)
  {
    InsertableArgs(b.deposits, d.Args());
  }

  lemma RowsDistinctWhenTailsDiffer(d: DepositArgs)
    ensures UniqueDigests(Rows(d, |d.coins|)) <==> |d.coins| == 1 || TailsDistinct(d.coins)
  {
    var rows := Rows(d, |d.coins|);
    forall i, j ensures SuffixAgree(d, i, j) { SuffixAgreement(d, i, j); }
    if |d.coins| != 1 && !TailsDistinct(d.coins) {
      var i, j :| 0 <= i < j < |d.coins| && Tail(d.coins[i].coinType) == Tail(d.coins[j].coinType);
      assert SuffixAgree(d, i, j) && rows[i].digest == rows[j].digest;
    } else {
      forall i, j | 0 <= i < j < |rows| ensures rows[i].digest != rows[j].digest {
        assert SuffixAgree(d, i, j);
      }
    }
  }

  predicate SuffixAgree(d: DepositArgs, i: int, j: int) {
    0 <= i < j < |d.coins| ==>
      (RowDigest(d, d.coins[i].coinType) == RowDigest(d, d.coins[j].coinType) <==>
       Tail(d.coins[i].coinType) == Tail(d.coins[j].coinType))
  }

  lemma SuffixAgreement(d: DepositArgs, i: int, j: int)
    ensures SuffixAgree(d, i, j)
  {
    if 0 <= i < j < |d.coins| {
      SuffixInjective(d.digest, Tail(d.coins[i].coinType), Tail(d.coins[j].coinType));
    }
  }
}
