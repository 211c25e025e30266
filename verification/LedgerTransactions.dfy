/**
 * Concurrent billing. Each charge, refund and deposit is a database transaction taken one
 * statement at a time, interleaved with the others: reads see committed rows only, a balance
 * write holds its row lock to the end, and an uncommitted unique-index entry makes rivals wait.
 * The theorem: the committed tables are what the committed calls produce one at a time, in
 * commit order, each with the answer it would have had alone.
 */
module LedgerTransactions {
  import opened Common
  import opened Ledger

  /** Where a transaction stands between two statements. */
  datatype Pc =
    | Begin
    | Returning(existing: Entry)            // found its own row: will commit without writing
    | Checked                               // found none
    | Summed(charged: int)                  // refund: charge rows added up
    | Cleared(charged: int)                 // refund: clamp passed
    | Locked                                // charge: account row locked, funds suffice
    | Inserting(count: nat)                 // deposit: this many rows inserted
    | Updated(balance: int, charged: int)   // balance written under the row lock
    | Ready(balance: int, charged: int)     // own row inserted: only the commit is left

  datatype Txn = Txn(op: Op, pc: Pc)

  datatype Commit = Commit(op: Op, answer: Answer)

  /** Row locks and uncommitted unique-index entries, each with the transaction that holds it. */
  datatype Held = Held(rows: map<Account, nat>, keys: map<OpKey, nat>, digests: map<string, nat>)

  datatype Db = Db(book: Book, txns: map<nat, Txn>, held: Held, log: seq<Commit>)

  const EmptyBook := Book(map[], [], [])

  const EmptyDb := Db(EmptyBook, map[], Held(map[], map[], map[]), [])

  // ---------------------------------------------------------------------------
  // Statements
  // ---------------------------------------------------------------------------

  function Move(db: Db, t: nat, pc: Pc): Db
    requires t in db.txns
  {
    db.(txns := db.txns[t := db.txns[t].(pc := pc)])
  }

  /** What stays held when transaction t ends. */
  function Without(held: Held, t: nat): Held {
    Held(map a | a in held.rows && held.rows[a] != t :: held.rows[a],
         map k | k in held.keys && held.keys[k] != t :: held.keys[k],
         map d | d in held.digests && held.digests[d] != t :: held.digests[d])
  }

  function Drop(db: Db, t: nat): Db {
    db.(txns := db.txns - {t}, held := Without(db.held, t))
  }

  function CommitAs(db: Db, t: nat, book: Book, answer: Answer): Db
    requires t in db.txns
  {
    Drop(db, t).(book := book, log := db.log + [Commit(db.txns[t].op, answer)])
  }

  function LockRow(db: Db, t: nat, a: Account, pc: Pc): Db
    requires t in db.txns
  {
    Move(db, t, pc).(held := db.held.(rows := db.held.rows[a := t]))
  }

  function ReadExisting(db: Db, t: nat): Db
    requires t in db.txns && (db.txns[t].op.ChargeTx? || db.txns[t].op.RefundTx?)
  {
    match Find(db.book.entries, db.txns[t].op.Row().key)
    case Some(e) => Move(db, t, Returning(e))
    case None => Move(db, t, Checked)
  }

  /** SELECT ... FOR UPDATE, then the funds check. */
  function LockAndCheck(db: Db, t: nat): Db
    requires t in db.txns && db.txns[t].op.ChargeTx?
  {
    var op := db.txns[t].op;
    if op.Holder() in db.held.rows then db
    else if Balance(db.book, op.Holder()) < op.args.amount then Drop(db, t)
    else LockRow(db, t, op.Holder(), Locked)
  }

  function SumCharges(db: Db, t: nat): Db
    requires t in db.txns && db.txns[t].op.RefundTx?
  {
    var charged := -SumFor(db.book.entries, db.txns[t].op.args.Key(Charge));
    if charged == 0 then Drop(db, t) else Move(db, t, Summed(charged))
  }

  function ClampRefund(db: Db, t: nat, charged: int): Db
    requires t in db.txns && db.txns[t].op.RefundTx?
  {
    var op := db.txns[t].op;
    if op.args.amount > charged - SumFor(db.book.entries, op.Row().key) then Drop(db, t)
    else Move(db, t, Cleared(charged))
  }

  /** UPDATE of the balance: takes the row lock unless this transaction already holds it. */
  function UpdateBalance(db: Db, t: nat, charged: int): Db
    requires t in db.txns && (db.txns[t].op.ChargeTx? || db.txns[t].op.RefundTx?)
  {
    var op := db.txns[t].op;
    if op.Holder() in db.held.rows && db.held.rows[op.Holder()] != t then db
    else LockRow(db, t, op.Holder(), Updated(Balance(db.book, op.Holder()) + op.Row().delta, charged))
  }

  function InsertRow(db: Db, t: nat, balance: int, charged: int): Db
    requires t in db.txns && (db.txns[t].op.ChargeTx? || db.txns[t].op.RefundTx?)
  {
    var key := db.txns[t].op.Row().key;
    if Find(db.book.entries, key).Some? then Drop(db, t)
    else if key in db.held.keys then db
    else Move(db, t, Ready(balance, charged)).(held := db.held.(keys := db.held.keys[key := t]))
  }

  function CommitRow(db: Db, t: nat, balance: int): Db
    requires t in db.txns && (db.txns[t].op.ChargeTx? || db.txns[t].op.RefundTx?)
  {
    var row := db.txns[t].op.Row();
    var book := db.book.(accounts := db.book.accounts[row.Holder() := balance], entries := db.book.entries + [row]);
    CommitAs(db, t, book, Posted(row))
  }

  function InsertDeposit(db: Db, t: nat, n: nat): Db
    requires t in db.txns && db.txns[t].op.DepositTx? && n < |db.txns[t].op.deposit.coins|
  {
    var d := db.txns[t].op.deposit;
    var digest := RowDigest(d, d.coins[n].coinType);
    if Credited(db.book.deposits, digest) then Drop(db, t)
    else if digest in db.held.digests then
      if db.held.digests[digest] == t then Drop(db, t) else db
    else Move(db, t, Inserting(n + 1)).(held := db.held.(digests := db.held.digests[digest := t]))
  }

  function CreditAccount(db: Db, t: nat): Db
    requires t in db.txns && db.txns[t].op.DepositTx?
  {
    var d := db.txns[t].op.deposit;
    if d.holder in db.held.rows then db
    else LockRow(db, t, d.holder, Ready(Balance(db.book, d.holder) + Credits(Rows(d, |d.coins|)), 0))
  }

  function CommitDeposit(db: Db, t: nat, balance: int): Db
    requires t in db.txns && db.txns[t].op.DepositTx?
  {
    var d := db.txns[t].op.deposit;
    var rows := Rows(d, |d.coins|);
    var book := db.book.(accounts := db.book.accounts[d.holder := balance], deposits := db.book.deposits + rows);
    CommitAs(db, t, book, Deposited(rows))
  }

  /** The next statement of transaction `t`; a blocked statement changes nothing. */
  function Advance(db: Db, t: nat): Db
    requires t in db.txns
  {
    var op := db.txns[t].op;
    match op
    case Open(_) => db
    case ChargeTx(_) =>
      (match db.txns[t].pc
       case Begin => ReadExisting(db, t)
       case Returning(e) => CommitAs(db, t, db.book, Posted(e))
       case Checked => LockAndCheck(db, t)
       case Locked => UpdateBalance(db, t, 0)
       case Updated(balance, charged) => InsertRow(db, t, balance, charged)
       case Ready(balance, _) => CommitRow(db, t, balance)
       case _ => db)
    case RefundTx(_) =>
      (match db.txns[t].pc
       case Begin => ReadExisting(db, t)
       case Returning(e) => CommitAs(db, t, db.book, Posted(e))
       case Checked => SumCharges(db, t)
       case Summed(charged) => ClampRefund(db, t, charged)
       case Cleared(charged) => UpdateBalance(db, t, charged)
       case Updated(balance, charged) => InsertRow(db, t, balance, charged)
       case Ready(balance, _) => CommitRow(db, t, balance)
       case _ => db)
    case DepositTx(d) =>
      (match db.txns[t].pc
       case Begin => Move(db, t, Inserting(0))
       case Inserting(n) => if n < |d.coins| then InsertDeposit(db, t, n) else CreditAccount(db, t)
       case Ready(balance, _) => CommitDeposit(db, t, balance)
       case _ => db)
  }

  datatype Event =
    | OpenAccount(account: Account)   // getOrCreateAccount, outside any transaction
    | Start(txn: nat, op: Op)
    | Statement(txn: nat)
    | Abort(txn: nat)                 // crash, timeout or a deadlock victim

  /** Calls validate the amount and create the account row before their transaction begins. */
  predicate Enabled(db: Db, e: Event) {
    match e
    case OpenAccount(_) => true
    case Start(t, op) =>
      && t !in db.txns && !op.Open? && op.Holder() in db.book.accounts
      && (op.DepositTx? || op.args.amount > 0)
    case Statement(t) => t in db.txns
    case Abort(t) => t in db.txns
  }

  function Next(db: Db, e: Event): Db
    requires Enabled(db, e)
  {
    match e
    case OpenAccount(a) => db.(book := EnsureAccount(db.book, a), log := db.log + [Commit(Open(a), Opened)])
    case Start(t, op) => db.(txns := db.txns[t := Txn(op, Begin)])
    case Statement(t) => Advance(db, t)
    case Abort(t) => Drop(db, t)
  }

  /** The databases an interleaving passes through. */
  ghost predicate Interleaving(run: seq<Db>, events: seq<Event>) {
    && |run| == |events| + 1
    && run[0] == EmptyDb
    && forall i :: 0 <= i < |events| ==> Enabled(run[i], events[i]) && run[i + 1] == Next(run[i], events[i])
  }

  // ---------------------------------------------------------------------------
  // Serial meaning of a log
  // ---------------------------------------------------------------------------

  function Replay(log: seq<Commit>): Book {
    if log == [] then EmptyBook else Serial(Replay(log[..|log| - 1]), log[|log| - 1].op).0
  }

  ghost predicate Answered(log: seq<Commit>) {
    log == [] ||
    (&& Answered(log[..|log| - 1])
     && Serial(Replay(log[..|log| - 1]), log[|log| - 1].op).1 == log[|log| - 1].answer)
  }

  lemma ReplayAppend(log: seq<Commit>, c: Commit)
    ensures Replay(log + [c]) == Serial(Replay(log), c.op).0
    ensures Answered(log + [c]) <==> Answered(log) && Serial(Replay(log), c.op).1 == c.answer
  {
    assert (log + [c])[..|log|] == log;
  }

  // ---------------------------------------------------------------------------
  // The invariant of one transaction and of the database
  // ---------------------------------------------------------------------------

  ghost predicate Holds(held: Held, t: nat, a: Account) { a in held.rows && held.rows[a] == t }

  /** The refund's charge sum is still what it read. */
  ghost predicate ChargedIs(b: Book, c: OpArgs, charged: int) {
    charged != 0 && charged == -SumFor(b.entries, c.Key(Charge))
  }

  /** What a written balance rests on: the lock, and a committed balance nobody else can move. */
  ghost predicate BalanceIs(b: Book, held: Held, t: nat, op: Op, balance: int, charged: int)
    requires op.ChargeTx? || op.RefundTx?
  {
    && Holds(held, t, op.Holder())
    && balance == Balance(b, op.Holder()) + op.Row().delta
    && (op.ChargeTx? ==> balance >= 0)
    && (op.RefundTx? ==> ChargedIs(b, op.args, charged) && op.args.amount <= charged)
  }

  /** The first n rows are claimed, distinct, and new to the committed table. */
  ghost predicate RowsClaimed(b: Book, held: Held, t: nat, d: DepositArgs, n: nat)
    requires n <= |d.coins|
  {
    && UniqueDigests(Rows(d, n))
    && forall r :: r in Rows(d, n) ==>
         !Credited(b.deposits, r.digest) && r.digest in held.digests && held.digests[r.digest] == t
  }

  ghost predicate RowTxnInv(b: Book, held: Held, t: nat, op: Op, pc: Pc)
    requires op.ChargeTx? || op.RefundTx?
  {
    && op.args.amount > 0
    && match pc
       case Begin => true
       case Checked => true
       case Returning(e) => Find(b.entries, op.Row().key) == Some(e)
       case Locked => op.ChargeTx? && Holds(held, t, op.Holder()) && Balance(b, op.Holder()) >= op.args.amount
       case Summed(charged) => op.RefundTx? && ChargedIs(b, op.args, charged)
       case Cleared(charged) => op.RefundTx? && ChargedIs(b, op.args, charged) && op.args.amount <= charged
       case Updated(balance, charged) => BalanceIs(b, held, t, op, balance, charged)
       case Ready(balance, charged) =>
         && BalanceIs(b, held, t, op, balance, charged)
         && Find(b.entries, op.Row().key).None?
         && op.Row().key in held.keys && held.keys[op.Row().key] == t
       case Inserting(_) => false
  }

  ghost predicate DepositTxnInv(b: Book, held: Held, t: nat, d: DepositArgs, pc: Pc) {
    match pc
    case Begin => true
    case Inserting(n) => n <= |d.coins| && RowsClaimed(b, held, t, d, n)
    case Ready(balance, _) =>
      && RowsClaimed(b, held, t, d, |d.coins|)
      && Holds(held, t, d.holder)
      && balance == Balance(b, d.holder) + Credits(Rows(d, |d.coins|))
    case _ => false
  }

  ghost predicate TxnInv(b: Book, held: Held, t: nat, txn: Txn) {
    && txn.op.Holder() in b.accounts
    && match txn.op
       case Open(_) => false
       case DepositTx(d) => DepositTxnInv(b, held, t, d, txn.pc)
       case _ => RowTxnInv(b, held, t, txn.op, txn.pc)
  }

  /** Only live transactions hold locks and index entries, and only those their position accounts for. */
  ghost predicate Tidy(txns: map<nat, Txn>, held: Held) {
    && (forall a :: a in held.rows ==> held.rows[a] in txns && HoldsLock(txns[held.rows[a]], a))
    && (forall k :: k in held.keys ==> held.keys[k] in txns && HoldsKey(txns[held.keys[k]]))
    && (forall d :: d in held.digests ==> held.digests[d] in txns && txns[held.digests[d]].op.DepositTx?)
  }

  ghost predicate HoldsLock(txn: Txn, a: Account) {
    txn.op.Holder() == a && (txn.pc.Locked? || txn.pc.Updated? || txn.pc.Ready?)
  }

  ghost predicate HoldsKey(txn: Txn) { txn.pc.Ready? && !txn.op.DepositTx? }

  ghost predicate AllTxns(b: Book, held: Held, txns: map<nat, Txn>) {
    forall t :: t in txns ==> TxnInv(b, held, t, txns[t])
  }

  /** The transactions in flight: each at rest on facts that no other can disturb. */
  ghost predicate Live(db: Db) {
    Tidy(db.txns, db.held) && AllTxns(db.book, db.held, db.txns)
  }

  ghost predicate DbInv(db: Db) {
    && BookInv(db.book)
    && Live(db)
    && db.book == Replay(db.log)
    && Answered(db.log)
  }

  // ---------------------------------------------------------------------------
  // Each statement keeps the invariant
  // ---------------------------------------------------------------------------

  /** Nothing that another transaction holds is taken from it. */
  ghost predicate OthersKeep(held: Held, held': Held, t: nat) {
    && (forall a :: a in held.rows && held.rows[a] != t ==> a in held'.rows && held'.rows[a] == held.rows[a])
    && (forall k :: k in held.keys && held.keys[k] != t ==> k in held'.keys && held'.keys[k] == held.keys[k])
    && (forall d :: d in held.digests && held.digests[d] != t ==> d in held'.digests && held'.digests[d] == held.digests[d])
  }

  lemma OtherStays(b: Book, held: Held, held': Held, t: nat, u: nat, txn: Txn)
    requires OthersKeep(held, held', t) && u != t && TxnInv(b, held, u, txn)
    ensures TxnInv(b, held', u, txn)
  {
    if txn.op.DepositTx? {
      var d := txn.op.deposit;
    }
  }

  /** Transaction t moves to a new position, taking or keeping what the position accounts for. */
  lemma MoveKeeps(db: Db, t: nat, pc: Pc, held': Held)
    requires Live(db) && t in db.txns
    requires OthersKeep(db.held, held', t)
    requires TxnInv(db.book, held', t, Txn(db.txns[t].op, pc))
    requires Tidy(db.txns[t := Txn(db.txns[t].op, pc)], held')
    ensures Live(Move(db, t, pc).(held := held'))
  {
    forall u | u in db.txns && u != t ensures TxnInv(db.book, held', u, db.txns[u]) {
      OtherStays(db.book, db.held, held', t, u, db.txns[u]);
    }
  }

  /** A move that takes nothing and gives up nothing. */
  lemma StepKeeps(db: Db, t: nat, pc: Pc)
    requires Live(db) && t in db.txns
    requires TxnInv(db.book, db.held, t, Txn(db.txns[t].op, pc))
    requires db.txns[t].pc.Begin? || db.txns[t].pc.Checked? || db.txns[t].pc.Summed? || db.txns[t].pc.Inserting?
    ensures Live(Move(db, t, pc))
  {
    MoveKeeps(db, t, pc, db.held);
  }

  /** Locking a free row, or one already held. */
  lemma LockKeeps(db: Db, t: nat, pc: Pc)
    requires Live(db) && t in db.txns
    requires var a := db.txns[t].op.Holder();
             && (a in db.held.rows ==> db.held.rows[a] == t)
             && HoldsLock(Txn(db.txns[t].op, pc), a)
             && TxnInv(db.book, db.held.(rows := db.held.rows[a := t]), t, Txn(db.txns[t].op, pc))
    requires !HoldsKey(db.txns[t])
    ensures Live(LockRow(db, t, db.txns[t].op.Holder(), pc))
  {
    var a := db.txns[t].op.Holder();
    MoveKeeps(db, t, pc, db.held.(rows := db.held.rows[a := t]));
  }

  /** An abort, for whatever reason, leaves the tables and the log as they were and frees what it held. */
  lemma DropKeeps(db: Db, t: nat)
    requires Live(db)
    ensures Live(Drop(db, t))
    ensures Drop(db, t).book == db.book && Drop(db, t).log == db.log
    ensures forall a :: a in Drop(db, t).held.rows ==> Drop(db, t).held.rows[a] != t
  {
    forall u | u in db.txns && u != t ensures TxnInv(db.book, Without(db.held, t), u, db.txns[u]) {
      OtherStays(db.book, db.held, Without(db.held, t), t, u, db.txns[u]);
    }
  }

  /** Refund rows only ever lower what is left to refund. */
  lemma RefundsAdd(entries: seq<Entry>, key: OpKey)
    requires UniqueKeys(entries) && Paired(entries) && key.kind == Refund
    ensures SumFor(entries, key) >= 0
  {
    SumOfUnique(entries, key);
  }

  lemma ReadsKeep(db: Db, t: nat)
    requires Live(db) && t in db.txns && (db.txns[t].op.ChargeTx? || db.txns[t].op.RefundTx?)
    requires TxnInv(db.book, db.held, t, db.txns[t])
    requires db.txns[t].pc.Begin? || db.txns[t].pc.Checked? || db.txns[t].pc.Summed?
    requires db.txns[t].op.RefundTx? ==> SumFor(db.book.entries, db.txns[t].op.Row().key) >= 0
    ensures Live(Advance(db, t))
  {
    var db' := Advance(db, t);
    if t !in db'.txns {
      DropKeeps(db, t);
    } else if db'.txns[t].pc.Locked? {
      LockKeeps(db, t, Locked);
    } else {
      StepKeeps(db, t, db'.txns[t].pc);
    }
  }

  lemma UpdateKeeps(db: Db, t: nat)
    requires Live(db) && t in db.txns && (db.txns[t].op.ChargeTx? || db.txns[t].op.RefundTx?)
    requires TxnInv(db.book, db.held, t, db.txns[t])
    requires db.txns[t].pc.Locked? || db.txns[t].pc.Cleared?
    ensures Live(Advance(db, t))
  {
    var db' := Advance(db, t);
    if db' != db {
      LockKeeps(db, t, db'.txns[t].pc);
    }
  }

  lemma InsertKeeps(db: Db, t: nat)
    requires Live(db) && t in db.txns && (db.txns[t].op.ChargeTx? || db.txns[t].op.RefundTx?)
    requires TxnInv(db.book, db.held, t, db.txns[t])
    requires db.txns[t].pc.Updated?
    ensures Live(Advance(db, t))
  {
    var db' := Advance(db, t);
    if t !in db'.txns {
      DropKeeps(db, t);
    } else if db' != db {
      MoveKeeps(db, t, db'.txns[t].pc, db'.held);
    }
  }

  lemma DepositMovesKeep(db: Db, t: nat)
    requires Live(db) && t in db.txns && db.txns[t].op.DepositTx? && !db.txns[t].pc.Ready?
    requires TxnInv(db.book, db.held, t, db.txns[t])
    ensures Live(Advance(db, t))
  {
    var d, pc := db.txns[t].op.deposit, db.txns[t].pc;
    var db' := Advance(db, t);
    if t !in db'.txns {
      DropKeeps(db, t);
    } else if db' != db {
      if db'.txns[t].pc.Ready? {
        LockKeeps(db, t, db'.txns[t].pc);
      } else {
        if pc.Inserting? { InsertedRowClaimed(db, db'.held, t, d, pc.count); }
        MoveKeeps(db, t, db'.txns[t].pc, db'.held);
      }
    }
  }

  lemma InsertedRowClaimed(db: Db, held': Held, t: nat, d: DepositArgs, n: nat)
    requires n < |d.coins| && RowsClaimed(db.book, db.held, t, d, n)
    requires var digest := RowDigest(d, d.coins[n].coinType);
             && digest !in db.held.digests && !Credited(db.book.deposits, digest)
             && held'.digests == db.held.digests[digest := t]
    ensures RowsClaimed(db.book, held', t, d, n + 1)
  {
    var rows, last := Rows(d, n), Rows(d, n + 1)[n];
    assert Rows(d, n + 1) == rows + [last];
    UniqueAppend(rows, last);
  }

  lemma UniqueAppend(rows: seq<Deposit>, last: Deposit)
    requires UniqueDigests(rows) && forall r :: r in rows ==> r.digest != last.digest
    ensures UniqueDigests(rows + [last])
  {}

  // ---------------------------------------------------------------------------
  // Commits
  // ---------------------------------------------------------------------------

  /** A charge or refund that reaches its commit writes exactly what the call would write alone, now. */
  lemma RowCommitIsSerial(db: Db, t: nat)
    requires t in db.txns && (db.txns[t].op.ChargeTx? || db.txns[t].op.RefundTx?) && db.txns[t].pc.Ready?
    requires TxnInv(db.book, db.held, t, db.txns[t])
    requires UniqueKeys(db.book.entries)
    ensures Serial(db.book, db.txns[t].op) == (CommitRow(db, t, db.txns[t].pc.balance).book, Posted(db.txns[t].op.Row()))
  {
    SumOfUnique(db.book.entries, db.txns[t].op.Row().key);
  }

  /** A call that found its own row answers as it would alone, now, and writes nothing. */
  lemma ReturnIsSerial(db: Db, t: nat)
    requires t in db.txns && (db.txns[t].op.ChargeTx? || db.txns[t].op.RefundTx?) && db.txns[t].pc.Returning?
    requires TxnInv(db.book, db.held, t, db.txns[t])
    ensures Serial(db.book, db.txns[t].op) == (db.book, Posted(db.txns[t].pc.existing))
  {
  }

  lemma ClaimedRowsInsert(b: Book, held: Held, t: nat, d: DepositArgs)
    requires RowsClaimed(b, held, t, d, |d.coins|)
    requires UniqueDigests(b.deposits)
    ensures Insertable(b.deposits, Rows(d, |d.coins|))
  {
    var rows := Rows(d, |d.coins|);
    InsertableExactly(b.deposits, rows);
    forall i | 0 <= i < |rows| ensures !Credited(b.deposits, rows[i].digest) { assert rows[i] in rows; }
  }

  lemma DepositCommitIsSerial(db: Db, t: nat)
    requires t in db.txns && db.txns[t].op.DepositTx? && db.txns[t].pc.Ready?
    requires var d := db.txns[t].op.deposit;
             && d.holder in db.book.accounts
             && db.txns[t].pc.balance == Balance(db.book, d.holder) + Credits(Rows(d, |d.coins|))
             && Insertable(db.book.deposits, Rows(d, |d.coins|))
    ensures var d := db.txns[t].op.deposit;
            Serial(db.book, db.txns[t].op) ==
              (CommitDeposit(db, t, db.txns[t].pc.balance).book, Deposited(Rows(d, |d.coins|)))
  {
  }

  /** Another's row, under a key we do not claim and on an account we do not hold, disturbs nothing we rest on. */
  lemma OtherSurvivesRow(b: Book, held: Held, t: nat, u: nat, txn: Txn, row: Entry)
    requires u != t && TxnInv(b, held, u, txn)
    requires Holds(held, t, row.Holder()) && row.key in held.keys && held.keys[row.key] == t
    requires Find(b.entries, row.key).None? && row.Holder() in b.accounts
    ensures TxnInv(Post(b, row), Without(held, t), u, txn)
  {
    OtherStays(b, held, Without(held, t), t, u, txn);
    if txn.op.ChargeTx? || txn.op.RefundTx? {
      RowSurvivesRow(b, Without(held, t), u, txn.op, txn.pc, row);
    }
  }

  lemma RowSurvivesRow(b: Book, held: Held, u: nat, op: Op, pc: Pc, row: Entry)
    requires (op.ChargeTx? || op.RefundTx?) && RowTxnInv(b, held, u, op, pc)
    requires !(op.Holder() == row.Holder() && Holds(held, u, op.Holder()))
    requires pc.Ready? ==> op.Row().key != row.key
    requires Find(b.entries, row.key).None? && row.Holder() in b.accounts
    ensures RowTxnInv(Post(b, row), held, u, op, pc)
  {
    FindAppend(b.entries, row, op.Row().key);
    FindAppend(b.entries, row, op.args.Key(Charge));
    NoneSumsToZero(b.entries, row.key);
  }

  lemma {:induction false} NoneSumsToZero(entries: seq<Entry>, key: OpKey)
    requires Find(entries, key).None?
    ensures SumFor(entries, key) == 0
  {
    if entries != [] { NoneSumsToZero(entries[..|entries| - 1], key); }
  }

  lemma OtherSurvivesDeposit(b: Book, held: Held, t: nat, u: nat, txn: Txn, d: DepositArgs, balance: int)
    requires u != t && TxnInv(b, held, u, txn)
    requires RowsClaimed(b, held, t, d, |d.coins|) && Holds(held, t, d.holder)
    ensures TxnInv(b.(accounts := b.accounts[d.holder := balance], deposits := b.deposits + Rows(d, |d.coins|)), Without(held, t), u, txn)
  {
    var rows := Rows(d, |d.coins|);
    if txn.op.DepositTx? && (txn.pc.Inserting? || txn.pc.Ready?) {
      var d2 := txn.op.deposit;
      var n := if txn.pc.Inserting? then txn.pc.count else |d2.coins|;
      forall r | r in Rows(d2, n) ensures !Credited(b.deposits + rows, r.digest) {
        assert held.digests[r.digest] == u;
      }
    }
  }

  lemma RowCommitStaysLive(db: Db, t: nat)
    requires Live(db) && t in db.txns && (db.txns[t].op.ChargeTx? || db.txns[t].op.RefundTx?) && db.txns[t].pc.Ready?
    requires TxnInv(db.book, db.held, t, db.txns[t])
    ensures Live(CommitRow(db, t, db.txns[t].pc.balance))
  {
    var row := db.txns[t].op.Row();
    var db' := CommitRow(db, t, db.txns[t].pc.balance);
    assert db'.book == Post(db.book, row);
    forall u | u in db'.txns ensures TxnInv(db'.book, db'.held, u, db'.txns[u]) {
      OtherSurvivesRow(db.book, db.held, t, u, db.txns[u], row);
    }
  }

  lemma DepositCommitStaysLive(db: Db, t: nat)
    requires Live(db) && t in db.txns && db.txns[t].op.DepositTx? && db.txns[t].pc.Ready?
    requires TxnInv(db.book, db.held, t, db.txns[t])
    ensures Live(CommitDeposit(db, t, db.txns[t].pc.balance))
  {
    var d := db.txns[t].op.deposit;
    var db' := CommitDeposit(db, t, db.txns[t].pc.balance);
    forall u | u in db'.txns ensures TxnInv(db'.book, db'.held, u, db'.txns[u]) {
      OtherSurvivesDeposit(db.book, db.held, t, u, db.txns[u], d, db.txns[t].pc.balance);
    }
  }

  /** A statement that is not a commit leaves tables and log alone; it keeps every transaction's footing. */
  lemma UncommittedKeeps(db: Db, t: nat)
    requires Live(db) && t in db.txns && TxnInv(db.book, db.held, t, db.txns[t])
    requires UniqueKeys(db.book.entries) && Paired(db.book.entries)
    requires !db.txns[t].pc.Ready? && !db.txns[t].pc.Returning?
    ensures Live(Advance(db, t)) && Advance(db, t).book == db.book && Advance(db, t).log == db.log
  {
    var op, pc := db.txns[t].op, db.txns[t].pc;
    if op.DepositTx? {
      DepositMovesKeep(db, t);
    } else {
      RefundsAdd(db.book.entries, op.args.Key(Refund));
      if pc.Begin? || pc.Checked? || pc.Summed? { ReadsKeep(db, t); }
      if pc.Locked? || pc.Cleared? { UpdateKeeps(db, t); }
      if pc.Updated? { InsertKeeps(db, t); }
    }
  }

  /** A commit appends one call to the log; book and answer are what that call gives alone. */
  lemma CommitIsSerial(db: Db, t: nat)
    requires Live(db) && t in db.txns && TxnInv(db.book, db.held, t, db.txns[t])
    requires UniqueKeys(db.book.entries) && UniqueDigests(db.book.deposits)
    requires db.txns[t].pc.Ready? || db.txns[t].pc.Returning?
    ensures Live(Advance(db, t))
    ensures |Advance(db, t).log| == |db.log| + 1
    ensures var c := Advance(db, t).log[|db.log|];
            && Advance(db, t).log == db.log + [c]
            && c.op == db.txns[t].op
            && Serial(db.book, c.op) == (Advance(db, t).book, c.answer)
  {
    var op, pc := db.txns[t].op, db.txns[t].pc;
    if op.DepositTx? {
      ClaimedRowsInsert(db.book, db.held, t, op.deposit);
      DepositCommitIsSerial(db, t);
      DepositCommitStaysLive(db, t);
    } else if pc.Ready? {
      RowCommitIsSerial(db, t);
      RowCommitStaysLive(db, t);
    } else {
      ReturnIsSerial(db, t);
      DropKeeps(db, t);
    }
  }

  lemma StatementKeeps(db: Db, t: nat)
    requires DbInv(db) && t in db.txns
    ensures DbInv(Advance(db, t))
  {
    assert TxnInv(db.book, db.held, t, db.txns[t]);
    if db.txns[t].pc.Ready? || db.txns[t].pc.Returning? {
      CommitIsSerial(db, t);
      var c := Advance(db, t).log[|db.log|];
      ReplayAppend(db.log, c);
      SerialKeeps(db.book, c.op);
    } else {
      UncommittedKeeps(db, t);
    }
  }

  lemma OpenKeepsLive(db: Db, a: Account)
    requires Live(db)
    ensures Live(db.(book := EnsureAccount(db.book, a)))
  {
    var b' := EnsureAccount(db.book, a);
    forall t | t in db.txns ensures TxnInv(b', db.held, t, db.txns[t]) {
      assert TxnInv(db.book, db.held, t, db.txns[t]);
    }
  }

  lemma StartKeepsLive(db: Db, t: nat, op: Op)
    requires Live(db) && Enabled(db, Start(t, op))
    ensures Live(Next(db, Start(t, op)))
  {
    assert TxnInv(db.book, db.held, t, Txn(op, Begin));
  }

  lemma NextKeeps(db: Db, e: Event)
    requires DbInv(db) && Enabled(db, e)
    ensures DbInv(Next(db, e))
  {
    match e
    case OpenAccount(a) =>
      ReplayAppend(db.log, Commit(Open(a), Opened));
      EnsureAccountKeeps(db.book, a);
      OpenKeepsLive(db, a);
    case Start(t, op) => StartKeepsLive(db, t, op);
    case Statement(t) => StatementKeeps(db, t);
    case Abort(t) => DropKeeps(db, t);
  }

  lemma {:induction false} InvThroughout(run: seq<Db>, events: seq<Event>, i: nat)
    requires Interleaving(run, events) && i < |run|
    ensures DbInv(run[i])
  {
    if i > 0 {
      InvThroughout(run, events, i - 1);
      NextKeeps(run[i - 1], events[i - 1]);
    }
  }

  // ---------------------------------------------------------------------------
  // Main results
  // ---------------------------------------------------------------------------

  /**
   * Serializability: whatever the interleaving, the committed tables are those of the committed
   * calls taken one at a time in commit order, and each call got the answer it would have had.
   */
  lemma Serializable(run: seq<Db>, events: seq<Event>, i: nat)
    requires Interleaving(run, events) && i < |run|
    ensures run[i].book == Replay(run[i].log) && Answered(run[i].log)
  {
    InvThroughout(run, events, i);
  }

  /**
   * Conservation: in every reachable database each balance is its deposits plus its signed
   * charge and refund rows, no balance is negative, no key is written twice, and no refund
   * exceeds its charge.
   */
  lemma BooksBalance(run: seq<Db>, events: seq<Event>, i: nat)
    requires Interleaving(run, events) && i < |run|
    ensures BookInv(run[i].book)
  {
    InvThroughout(run, events, i);
  }

  predicate HoldsNothing(held: Held, t: nat) {
    t !in held.rows.Values && t !in held.keys.Values && t !in held.digests.Values
  }

  /** u holds the same row locks and index entries. */
  ghost predicate SameHolds(held: Held, held': Held, u: nat) {
    && (forall a :: a in held.rows && held.rows[a] == u <==> a in held'.rows && held'.rows[a] == u)
    && (forall k :: k in held.keys && held.keys[k] == u <==> k in held'.keys && held'.keys[k] == u)
    && (forall d :: d in held.digests && held.digests[d] == u <==> d in held'.digests && held'.digests[d] == u)
  }

  /** A racer whose row was committed first aborts at its insert and leaves no trace. */
  lemma RacerLeavesNoTrace(run: seq<Db>, events: seq<Event>, i: nat, t: nat)
    requires Interleaving(run, events) && i < |run|
    requires t in run[i].txns && run[i].txns[t].pc.Updated?
    requires run[i].txns[t].op.ChargeTx? || run[i].txns[t].op.RefundTx?
    requires Find(run[i].book.entries, run[i].txns[t].op.Row().key).Some?
    ensures Advance(run[i], t) == Drop(run[i], t)
    ensures Drop(run[i], t).book == run[i].book && Drop(run[i], t).log == run[i].log
    ensures t !in Drop(run[i], t).txns && HoldsNothing(Drop(run[i], t).held, t)
    ensures forall u :: u != t ==> SameHolds(run[i].held, Drop(run[i], t).held, u)
  {
    InvThroughout(run, events, i);
    assert TxnInv(run[i].book, run[i].held, t, run[i].txns[t]);
    DropFrees(run[i], t);
  }

  lemma DropFrees(db: Db, t: nat)
    ensures t !in Drop(db, t).txns && HoldsNothing(Drop(db, t).held, t)
    ensures forall u :: u != t ==> SameHolds(db.held, Drop(db, t).held, u)
  {
  }

  /** A deposit whose next digest is not committed, and claimed by another open deposit. */
  predicate AwaitsRival(db: Db, t: nat)
    requires t in db.txns
  {
    var txn := db.txns[t];
    && txn.op.DepositTx? && txn.pc.Inserting? && txn.pc.count < |txn.op.deposit.coins|
    && var digest := RowDigest(txn.op.deposit, txn.op.deposit.coins[txn.pc.count].coinType);
       !Credited(db.book.deposits, digest) && digest in db.held.digests && db.held.digests[digest] != t
  }

  lemma CommitMoves(db: Db, t: nat)
    requires t in db.txns && TxnInv(db.book, db.held, t, db.txns[t])
    ensures db.txns[t].pc.Ready? || db.txns[t].pc.Returning? ==> |Advance(db, t).log| == |db.log| + 1
  {
  }

  /** Whoever waits, but not for a rival's digest, waits for a transaction that is further on and itself not waiting for a digest. */
  lemma BlockedOn(db: Db, t: nat) returns (u: nat)
    requires Live(db) && t in db.txns && Advance(db, t) == db && !AwaitsRival(db, t)
    ensures u in db.txns && !AwaitsRival(db, u)
    ensures db.txns[t].pc.Updated? ==> db.txns[u].pc.Ready?
    ensures !db.txns[t].pc.Updated? ==> db.txns[u].pc.Locked? || db.txns[u].pc.Updated? || db.txns[u].pc.Ready?
    ensures !db.txns[t].pc.Ready? && !db.txns[t].pc.Locked?
  {
    var txn := db.txns[t];
    assert TxnInv(db.book, db.held, t, txn);
    CommitMoves(db, t);
    if txn.pc.Updated? {
      u := db.held.keys[txn.op.Row().key];
    } else {
      u := db.held.rows[txn.op.Holder()];
    }
  }

  /** A transaction that does not wait for a rival's digest is enough for some transaction to move. */
  lemma SomeoneMoves(db: Db, t: nat)
    requires Live(db) && t in db.txns && !AwaitsRival(db, t)
    ensures exists u :: u in db.txns && Advance(db, u) != db
  {
    if forall u :: u in db.txns ==> Advance(db, u) == db {
      var u := BlockedOn(db, t);
      var v := BlockedOn(db, u);
      var _ := BlockedOn(db, v);
    }
  }

  /**
   * Deadlock, exactly: in a reachable database some transaction can take its next statement if and
   * only if one of them does not wait for a digest that a rival deposit has claimed.
   */
  lemma SomeoneMovesExactly(run: seq<Db>, events: seq<Event>, i: nat)
    requires Interleaving(run, events) && i < |run|
    ensures (exists u :: u in run[i].txns && Advance(run[i], u) != run[i]) <==>
            (exists u :: u in run[i].txns && !AwaitsRival(run[i], u))
  {
    InvThroughout(run, events, i);
    MovesExactly(run[i]);
  }

  lemma RivalBlocks(db: Db, t: nat)
    requires t in db.txns
    ensures AwaitsRival(db, t) ==> Advance(db, t) == db
  {
  }

  lemma MovesExactly(db: Db)
    requires Live(db)
    ensures (exists u :: u in db.txns && Advance(db, u) != db) <==> (exists u :: u in db.txns && !AwaitsRival(db, u))
  {
    if u :| u in db.txns && Advance(db, u) != db {
      RivalBlocks(db, u);
    }
    if u :| u in db.txns && !AwaitsRival(db, u) {
      SomeoneMoves(db, u);
    }
  }

  /** Charges and refunds never deadlock among themselves, whatever deposits wait for. */
  lemma RowsNeverDeadlock(run: seq<Db>, events: seq<Event>, i: nat, t: nat)
    requires Interleaving(run, events) && i < |run| && t in run[i].txns && !run[i].txns[t].op.DepositTx?
    ensures exists u :: u in run[i].txns && Advance(run[i], u) != run[i]
  {
    InvThroughout(run, events, i);
    SomeoneMoves(run[i], t);
  }

  /** The deposit with its coins the other way round. */
  function Crossed(d: DepositArgs): DepositArgs
    requires |d.coins| == 2
  {
    d.(coins := [d.coins[1], d.coins[0]])
  }

  function CrossedEvents(d: DepositArgs): seq<Event>
    requires |d.coins| == 2
  {
    [OpenAccount(d.holder), Start(1, DepositTx(d)), Start(2, DepositTx(Crossed(d))),
     Statement(1), Statement(2), Statement(1), Statement(2)]
  }

  function Opening(d: DepositArgs): Db {
    Db(EnsureAccount(EmptyBook, d.holder), map[], Held(map[], map[], map[]), [Commit(Open(d.holder), Opened)])
  }

  /** Both transactions open, at these positions, holding these digests. */
  function Racing(d: DepositArgs, first: Pc, second: Pc, digests: map<string, nat>): Db
    requires |d.coins| == 2
  {
    Opening(d).(txns := map[1 := Txn(DepositTx(d), first), 2 := Txn(DepositTx(Crossed(d)), second)],
                held := Held(map[], map[], digests))
  }

  /** The database after n of these events. */
  function CrossedDb(d: DepositArgs, n: nat): Db
    requires |d.coins| == 2 && n <= 7
  {
    var x, y := RowDigest(d, d.coins[0].coinType), RowDigest(d, d.coins[1].coinType);
    match n
    case 0 => EmptyDb
    case 1 => Opening(d)
    case 2 => Opening(d).(txns := map[1 := Txn(DepositTx(d), Begin)])
    case 3 => Racing(d, Begin, Begin, map[])
    case 4 => Racing(d, Inserting(0), Begin, map[])
    case 5 => Racing(d, Inserting(0), Inserting(0), map[])
    case 6 => Racing(d, Inserting(1), Inserting(0), map[x := 1])
    case _ => Racing(d, Inserting(1), Inserting(1), map[x := 1, y := 2])
  }

  predicate TwoRows(d: DepositArgs) {
    |d.coins| == 2 && RowDigest(d, d.coins[0].coinType) != RowDigest(d, d.coins[1].coinType)
  }

  /**
   * Two declarations of one two-coin deposit that insert its rows in opposite orders: each claims
   * its first row, and then neither can move.
   */
  lemma CrossedDepositsStick(d: DepositArgs) returns (run: seq<Db>)
    requires TwoRows(d)
    ensures Interleaving(run, CrossedEvents(d))
    ensures var last := run[|run| - 1];
            last.txns.Keys == {1, 2} && Advance(last, 1) == last && Advance(last, 2) == last
  {
    run := seq(8, n requires 0 <= n < 8 => CrossedDb(d, n));
    forall n | 0 <= n < 7
      ensures Enabled(run[n], CrossedEvents(d)[n]) && run[n + 1] == Next(run[n], CrossedEvents(d)[n])
    {
      CrossedStep(d, n);
    }
    BothWait(d);
  }

  lemma CrossedStep(d: DepositArgs, n: nat)
    requires TwoRows(d) && n < 7
    ensures Enabled(CrossedDb(d, n), CrossedEvents(d)[n])
    ensures CrossedDb(d, n + 1) == Next(CrossedDb(d, n), CrossedEvents(d)[n])
  {
    if n < 3 {
      CrossedOpens(d, n);
    } else if n == 3 {
      FirstBegins(d);
    } else if n == 4 {
      SecondBegins(d);
    } else if n == 5 {
      FirstClaims(d);
    } else {
      SecondClaims(d);
    }
  }

  lemma CrossedOpens(d: DepositArgs, n: nat)
    requires TwoRows(d) && n < 3
    ensures Enabled(CrossedDb(d, n), CrossedEvents(d)[n])
    ensures CrossedDb(d, n + 1) == Next(CrossedDb(d, n), CrossedEvents(d)[n])
  {
  }

  lemma FirstBegins(d: DepositArgs)
    requires TwoRows(d)
    ensures Enabled(CrossedDb(d, 3), CrossedEvents(d)[3])
    ensures CrossedDb(d, 4) == Next(CrossedDb(d, 3), CrossedEvents(d)[3])
  {
  }

  lemma SecondBegins(d: DepositArgs)
    requires TwoRows(d)
    ensures Enabled(CrossedDb(d, 4), CrossedEvents(d)[4])
    ensures CrossedDb(d, 5) == Next(CrossedDb(d, 4), CrossedEvents(d)[4])
  {
  }

  lemma FirstClaims(d: DepositArgs)
    requires TwoRows(d)
    ensures Enabled(CrossedDb(d, 5), CrossedEvents(d)[5])
    ensures CrossedDb(d, 6) == Next(CrossedDb(d, 5), CrossedEvents(d)[5])
  {
    SameDigests(d);
  }

  lemma SecondClaims(d: DepositArgs)
    requires TwoRows(d)
    ensures Enabled(CrossedDb(d, 6), CrossedEvents(d)[6])
    ensures CrossedDb(d, 7) == Next(CrossedDb(d, 6), CrossedEvents(d)[6])
  {
    SameDigests(d);
  }

  lemma SameDigests(d: DepositArgs)
    requires |d.coins| == 2
    ensures forall ct :: RowDigest(Crossed(d), ct) == RowDigest(d, ct)
    ensures Crossed(d).coins[0] == d.coins[1] && Crossed(d).coins[1] == d.coins[0]
  {
  }

  lemma BothWait(d: DepositArgs)
    requires TwoRows(d)
    ensures Advance(CrossedDb(d, 7), 1) == CrossedDb(d, 7) && Advance(CrossedDb(d, 7), 2) == CrossedDb(d, 7)
  {
    SameDigests(d);
  }

  // ---------------------------------------------------------------------------
  // Left alone, a transaction finishes
  // ---------------------------------------------------------------------------

  /** Up to n statements of transaction t, with nobody else running. */
  function Steps(db: Db, t: nat, n: nat): Db
    decreases n
  {
    if n == 0 || t !in db.txns then db else Steps(Advance(db, t), t, n - 1)
  }

  lemma StepsNext(db: Db, t: nat, n: nat)
    requires t in db.txns && n > 0
    ensures Steps(db, t, n) == Steps(Advance(db, t), t, n - 1)
  {
  }

  lemma StepsDone(db: Db, t: nat, n: nat)
    requires t !in db.txns
    ensures Steps(db, t, n) == db
  {
  }

  const NothingHeld := Held(map[], map[], map[])

  /** The transaction has just begun, and no other is open. */
  ghost predicate Alone(db: Db, t: nat, op: Op) {
    && db.txns == map[t := Txn(op, Begin)] && db.held == NothingHeld && op.Holder() in db.book.accounts
  }

  /** It ended as the call alone would: committed with its answer, or refused without a trace. */
  ghost predicate EndsAs(db: Db, op: Op, end: Db) {
    var (book, answer) := Serial(db.book, op);
    && end.txns == map[] && end.held == NothingHeld
    && (if answer.Refused? then end.book == db.book && end.log == db.log
        else end.book == book && end.log == db.log + [Commit(op, answer)])
  }

  lemma DropAlone(db: Db, t: nat)
    requires db.txns.Keys == {t}
    requires forall a :: a in db.held.rows ==> db.held.rows[a] == t
    requires forall k :: k in db.held.keys ==> db.held.keys[k] == t
    requires forall d :: d in db.held.digests ==> db.held.digests[d] == t
    ensures Drop(db, t) == db.(txns := map[], held := NothingHeld)
  {
  }

  /** A charge left alone ends within five statements, as the call would. */
  lemma ChargeFinishes(db: Db, t: nat, c: OpArgs)
    requires Alone(db, t, ChargeTx(c)) && c.amount > 0
    ensures EndsAs(db, ChargeTx(c), Steps(db, t, 5))
  {
    var db1 := Advance(db, t);
    StepsNext(db, t, 5);
    StepsNext(db1, t, 4);
    DropAlone(db1, t);
    if Find(db.book.entries, c.Key(Charge)).Some? || Balance(db.book, c.Holder()) < c.amount {
      StepsDone(Advance(db1, t), t, 3);
    } else {
      ChargeCommits(Advance(db1, t), t, c);
    }
  }

  lemma ChargeCommits(db: Db, t: nat, c: OpArgs)
    requires db.txns == map[t := Txn(ChargeTx(c), Locked)] && db.held == Held(map[c.Holder() := t], map[], map[])
    requires c.amount > 0 && c.Holder() in db.book.accounts
    requires Find(db.book.entries, c.Key(Charge)).None? && Balance(db.book, c.Holder()) >= c.amount
    ensures var end := Steps(db, t, 3);
            && end.txns == map[] && end.held == NothingHeld
            && end.book == ChargeOp(db.book, c).0
            && end.log == db.log + [Commit(ChargeTx(c), Posted(Entry(c.user, c.Key(Charge), -c.amount)))]
  {
    StepsNext(db, t, 3);
    RowCommits(Advance(db, t), t, ChargeTx(c));
  }

  /** With the balance written and the row free, two more statements commit. */
  lemma RowCommits(db: Db, t: nat, op: Op)
    requires op.ChargeTx? || op.RefundTx?
    requires t in db.txns && db.txns == map[t := Txn(op, db.txns[t].pc)] && db.txns[t].pc.Updated?
    requires db.held == Held(map[op.Holder() := t], map[], map[]) && Find(db.book.entries, op.Row().key).None?
    ensures var row := op.Row();
            Steps(db, t, 2) ==
              Db(db.book.(accounts := db.book.accounts[op.Holder() := db.txns[t].pc.balance], entries := db.book.entries + [row]),
                 map[], NothingHeld, db.log + [Commit(op, Posted(row))])
  {
    var ready := Advance(db, t);
    StepsNext(db, t, 2);
    StepsNext(ready, t, 1);
    DropAlone(ready, t);
  }

  /** A refund left alone ends within six. */
  lemma RefundFinishes(db: Db, t: nat, c: OpArgs)
    requires Alone(db, t, RefundTx(c)) && c.amount > 0
    ensures EndsAs(db, RefundTx(c), Steps(db, t, 6))
  {
    var db1 := Advance(db, t);
    var charged := -SumFor(db.book.entries, c.Key(Charge));
    StepsNext(db, t, 6);
    StepsNext(db1, t, 5);
    DropAlone(db1, t);
    if Find(db.book.entries, c.Key(Refund)).Some? || charged == 0 {
      StepsDone(Advance(db1, t), t, 4);
    } else {
      SummedFinishes(Advance(db1, t), t, c, charged);
    }
  }

  lemma SummedFinishes(db: Db, t: nat, c: OpArgs, charged: int)
    requires db.txns == map[t := Txn(RefundTx(c), Summed(charged))] && db.held == NothingHeld
    requires c.amount > 0 && c.Holder() in db.book.accounts && Find(db.book.entries, c.Key(Refund)).None?
    requires charged == -SumFor(db.book.entries, c.Key(Charge)) && charged != 0
    ensures EndsAs(db, RefundTx(c), Steps(db, t, 4))
  {
    if c.amount > charged - SumFor(db.book.entries, c.Key(Refund)) {
      StepsNext(db, t, 4);
      DropAlone(db, t);
      StepsDone(Advance(db, t), t, 3);
    } else {
      RefundCommits(db, t, c, charged);
    }
  }

  lemma RefundCommits(db: Db, t: nat, c: OpArgs, charged: int)
    requires db.txns == map[t := Txn(RefundTx(c), Summed(charged))] && db.held == NothingHeld
    requires c.amount > 0 && c.Holder() in db.book.accounts && Find(db.book.entries, c.Key(Refund)).None?
    requires charged == -SumFor(db.book.entries, c.Key(Charge)) && charged != 0
    requires c.amount <= charged - SumFor(db.book.entries, c.Key(Refund))
    ensures var end := Steps(db, t, 4);
            && end.txns == map[] && end.held == NothingHeld
            && end.book == RefundOp(db.book, c).0
            && end.log == db.log + [Commit(RefundTx(c), Posted(Entry(c.user, c.Key(Refund), c.amount)))]
  {
    StepsNext(db, t, 4);
    StepsNext(Advance(db, t), t, 3);
    RowCommits(Advance(Advance(db, t), t), t, RefundTx(c));
  }

  /** Only t holds anything: the digests of these rows. */
  ghost predicate ClaimsOnly(held: Held, t: nat, rows: seq<Deposit>) {
    && held.rows == map[] && held.keys == map[]
    && (forall d :: d in held.digests <==> Credited(rows, d))
    && (forall d :: d in held.digests ==> held.digests[d] == t)
  }

  lemma ClaimNext(held: Held, t: nat, rows: seq<Deposit>, i: nat)
    requires i < |rows| && ClaimsOnly(held, t, rows[..i])
    ensures ClaimsOnly(held.(digests := held.digests[rows[i].digest := t]), t, rows[..i + 1])
  {
    assert rows[..i + 1] == rows[..i] + [rows[i]];
    forall d ensures Credited(rows[..i + 1], d) <==> Credited(rows[..i], d) || rows[i].digest == d {
      CreditedConcat(rows[..i], [rows[i]], d);
      assert [rows[i]][0] == rows[i];
    }
  }

  /** The insert loop left alone: it claims every row and commits, or meets the first conflict and drops. */
  lemma {:induction false} InsertsFinish(db: Db, t: nat, d: DepositArgs, i: nat)
    requires i <= |d.coins| && db.txns == map[t := Txn(DepositTx(d), Inserting(i))] && d.holder in db.book.accounts
    requires ClaimsOnly(db.held, t, Rows(d, |d.coins|)[..i]) && Insertable(db.book.deposits, Rows(d, |d.coins|)[..i])
    ensures EndsAs(db, DepositTx(d), Steps(db, t, |d.coins| - i + 2))
    decreases |d.coins| - i
  {
    var rows := Rows(d, |d.coins|);
    if i == |d.coins| {
      assert rows[..i] == rows;
      DepositCommits(db, t, d);
    } else {
      var digest := RowDigest(d, d.coins[i].coinType);
      var db' := Advance(db, t);
      StepsNext(db, t, |d.coins| - i + 2);
      if Credited(db.book.deposits, digest) || digest in db.held.digests {
        ConflictEnds(db, t, d, i);
        StepsDone(db', t, |d.coins| - i + 1);
      } else {
        RowClaimed(db, t, d, i);
        InsertsFinish(db', t, d, i + 1);
        EndsAlike(db, db', DepositTx(d), Steps(db', t, |d.coins| - i + 1));
      }
    }
  }

  lemma EndsAlike(db: Db, db': Db, op: Op, end: Db)
    requires EndsAs(db', op, end) && db'.book == db.book && db'.log == db.log
    ensures EndsAs(db, op, end)
  {
  }

  lemma InsertShape(db: Db, t: nat, d: DepositArgs, i: nat)
    requires i < |d.coins| && db.txns == map[t := Txn(DepositTx(d), Inserting(i))]
    ensures var digest := RowDigest(d, d.coins[i].coinType);
            Advance(db, t) ==
              if Credited(db.book.deposits, digest) || (digest in db.held.digests && db.held.digests[digest] == t) then Drop(db, t)
              else if digest in db.held.digests then db
              else db.(txns := map[t := Txn(DepositTx(d), Inserting(i + 1))],
                       held := db.held.(digests := db.held.digests[digest := t]))
  {
  }

  lemma NoConflict(deposits: seq<Deposit>, held: Held, t: nat, rows: seq<Deposit>, i: nat)
    requires i < |rows| && ClaimsOnly(held, t, rows[..i]) && Insertable(deposits, rows[..i])
    requires !Credited(deposits, rows[i].digest) && rows[i].digest !in held.digests
    ensures Insertable(deposits, rows[..i + 1])
  {
    InsertStep(deposits, rows, i);
    CreditedConcat(deposits, rows[..i], rows[i].digest);
  }

  lemma RowClaimed(db: Db, t: nat, d: DepositArgs, i: nat)
    requires i < |d.coins| && db.txns == map[t := Txn(DepositTx(d), Inserting(i))]
    requires ClaimsOnly(db.held, t, Rows(d, |d.coins|)[..i]) && Insertable(db.book.deposits, Rows(d, |d.coins|)[..i])
    requires var digest := RowDigest(d, d.coins[i].coinType); !Credited(db.book.deposits, digest) && digest !in db.held.digests
    ensures var db', rows := Advance(db, t), Rows(d, |d.coins|);
            && db' == db.(txns := map[t := Txn(DepositTx(d), Inserting(i + 1))], held := db'.held)
            && ClaimsOnly(db'.held, t, rows[..i + 1]) && Insertable(db.book.deposits, rows[..i + 1])
  {
    InsertShape(db, t, d, i);
    ClaimNext(db.held, t, Rows(d, |d.coins|), i);
    NoConflict(db.book.deposits, db.held, t, Rows(d, |d.coins|), i);
  }

  lemma RefusedEnds(db: Db, d: DepositArgs)
    requires d.holder in db.book.accounts && !Insertable(db.book.deposits, Rows(d, |d.coins|))
    ensures EndsAs(db, DepositTx(d), db.(txns := map[], held := NothingHeld))
  {
  }

  lemma ConflictEnds(db: Db, t: nat, d: DepositArgs, i: nat)
    requires i < |d.coins| && db.txns == map[t := Txn(DepositTx(d), Inserting(i))] && d.holder in db.book.accounts
    requires ClaimsOnly(db.held, t, Rows(d, |d.coins|)[..i])
    requires var digest := RowDigest(d, d.coins[i].coinType); Credited(db.book.deposits, digest) || digest in db.held.digests
    ensures EndsAs(db, DepositTx(d), Advance(db, t)) && t !in Advance(db, t).txns
  {
    var rows := Rows(d, |d.coins|);
    InsertShape(db, t, d, i);
    DropAlone(db, t);
    CreditedConcat(db.book.deposits, rows[..i], rows[i].digest);
    ConflictRefuses(db.book.deposits, rows, i);
    RefusedEnds(db, d);
  }

  lemma DepositCommits(db: Db, t: nat, d: DepositArgs)
    requires db.txns == map[t := Txn(DepositTx(d), Inserting(|d.coins|))] && d.holder in db.book.accounts
    requires ClaimsOnly(db.held, t, Rows(d, |d.coins|)) && Insertable(db.book.deposits, Rows(d, |d.coins|))
    ensures EndsAs(db, DepositTx(d), Steps(db, t, 2))
  {
    var balance := Balance(db.book, d.holder) + Credits(Rows(d, |d.coins|));
    LockedAlone(db, t, d);
    StepsNext(db, t, 2);
    LockedCommits(Advance(db, t), t, d, balance);
    CommittedEnds(db, d, balance);
  }

  lemma CommittedEnds(db: Db, d: DepositArgs, balance: int)
    requires d.holder in db.book.accounts && Insertable(db.book.deposits, Rows(d, |d.coins|))
    requires balance == db.book.accounts[d.holder] + Credits(Rows(d, |d.coins|))
    ensures var rows := Rows(d, |d.coins|);
            EndsAs(db, DepositTx(d),
                   Db(db.book.(accounts := db.book.accounts[d.holder := balance], deposits := db.book.deposits + rows),
                      map[], NothingHeld, db.log + [Commit(DepositTx(d), Deposited(rows))]))
  {
    DepositSerial(db.book, d);
  }

  lemma LockedCommits(db: Db, t: nat, d: DepositArgs, balance: int)
    requires db.txns == map[t := Txn(DepositTx(d), Ready(balance, 0))]
    requires forall a :: a in db.held.rows ==> db.held.rows[a] == t
    requires forall k :: k in db.held.keys ==> db.held.keys[k] == t
    requires forall x :: x in db.held.digests ==> db.held.digests[x] == t
    ensures var rows := Rows(d, |d.coins|);
            Steps(db, t, 1) ==
              Db(db.book.(accounts := db.book.accounts[d.holder := balance], deposits := db.book.deposits + rows),
                 map[], NothingHeld, db.log + [Commit(DepositTx(d), Deposited(rows))])
  {
    StepsNext(db, t, 1);
    CommitAlone(db, t, d, balance);
  }

  lemma CommitAlone(db: Db, t: nat, d: DepositArgs, balance: int)
    requires db.txns == map[t := Txn(DepositTx(d), Ready(balance, 0))]
    requires forall a :: a in db.held.rows ==> db.held.rows[a] == t
    requires forall k :: k in db.held.keys ==> db.held.keys[k] == t
    requires forall x :: x in db.held.digests ==> db.held.digests[x] == t
    ensures var rows := Rows(d, |d.coins|);
            Advance(db, t) ==
              Db(db.book.(accounts := db.book.accounts[d.holder := balance], deposits := db.book.deposits + rows),
                 map[], NothingHeld, db.log + [Commit(DepositTx(d), Deposited(rows))])
  {
    DropAlone(db, t);
  }

  lemma MoveAlone(db: Db, t: nat, op: Op, was: Pc, pc: Pc)
    requires db.txns == map[t := Txn(op, was)]
    ensures Move(db, t, pc) == db.(txns := map[t := Txn(op, pc)])
  {
  }

  lemma LockedAlone(db: Db, t: nat, d: DepositArgs)
    requires db.txns == map[t := Txn(DepositTx(d), Inserting(|d.coins|))] && d.holder !in db.held.rows
    ensures var balance := Balance(db.book, d.holder) + Credits(Rows(d, |d.coins|));
            Advance(db, t) == db.(txns := map[t := Txn(DepositTx(d), Ready(balance, 0))],
                                  held := db.held.(rows := db.held.rows[d.holder := t]))
  {
    var balance := Balance(db.book, d.holder) + Credits(Rows(d, |d.coins|));
    MoveAlone(db, t, DepositTx(d), Inserting(|d.coins|), Ready(balance, 0));
    assert Advance(db, t) == LockRow(db, t, d.holder, Ready(balance, 0));
  }

  lemma DepositSerial(b: Book, d: DepositArgs)
    requires d.holder in b.accounts && Insertable(b.deposits, Rows(d, |d.coins|))
    ensures var rows := Rows(d, |d.coins|);
            Serial(b, DepositTx(d)) ==
              (b.(deposits := b.deposits + rows, accounts := b.accounts[d.holder := b.accounts[d.holder] + Credits(rows)]), Deposited(rows))
  {
  }

  /** A deposit left alone ends within three statements more than it has coins. */
  lemma DepositFinishes(db: Db, t: nat, d: DepositArgs)
    requires Alone(db, t, DepositTx(d))
    ensures EndsAs(db, DepositTx(d), Steps(db, t, |d.coins| + 3))
  {
    var begun := Advance(db, t);
    assert Rows(d, |d.coins|)[..0] == [];
    StepsNext(db, t, |d.coins| + 3);
    InsertsFinish(begun, t, d, 0);
  }
}
