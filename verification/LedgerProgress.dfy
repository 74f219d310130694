/**
 What a transaction gets done whatever the others do in between: once it has the lock, its
 operation is carried out on the balance that stood then, and its commit writes it
 (api/services/subscriptions.py).
 */
module LedgerProgress {
  import opened CreditLedger
  import opened LedgerTransactions
  import opened Outcomes
  import opened Runs

  /** `run` continues `base` with steps of other transactions only. */
  predicate OthersStep(run: Run<Action>, base: Run<Action>, t: TxId) {
    run == base || (run.Then? && run.last.tx != t && OthersStep(run.before, base, t))
  }

  /** What a committing transaction writes belongs to companies that it holds. */
  lemma WritesOwnCompanies(db: Database, t: TxId, s: Transaction, c: CompanyId)
    requires SessionOk(db, t, s) && !Holds(db, t, c)
    ensures RowsOf(db.rows + s.pending, c) == RowsOf(db.rows, c)
  {
    PostAllElsewhere(db.rows, db.rows, s.done, s.pending);
    NoRowsOf(s.pending, c);
    RowsOfConcat(db.rows, s.pending, c);
    hide RowsOf;
    assert RowsOf(db.rows, c) + [] == RowsOf(db.rows, c);
  }

  lemma OtherClosing(subscribed: set<CompanyId>, db: Database, a: Action, t: TxId, c: CompanyId)
    requires Serial(db) && a.tx != t && Holds(db, t, c) && (a.Commit? || a.Rollback?)
    ensures var db' := Act(subscribed, db, a);
            && Session(db', t) == Session(db, t) && Holds(db', t, c)
            && RowsOf(db'.rows, c) == RowsOf(db.rows, c)
  {
    if a.tx in db.open {
      WritesOwnCompanies(db, a.tx, db.open[a.tx], c);
    }
    hide RowsOf, SessionOk;
    assert db.rows + [] == db.rows;
  }

  lemma OtherWorking(subscribed: set<CompanyId>, db: Database, a: Action, t: TxId, c: CompanyId)
    requires a.tx != t && Holds(db, t, c) && !a.Commit? && !a.Rollback?
    ensures var db' := Act(subscribed, db, a);
            Session(db', t) == Session(db, t) && Holds(db', t, c) && db'.rows == db.rows
  {
    hide Rejects, ClockAdvanced, Balance;
  }

  /** Another transaction's step leaves alone what this one has and holds. */
  lemma OtherLeavesAlone(subscribed: set<CompanyId>, db: Database, a: Action, t: TxId, c: CompanyId)
    requires Serial(db) && a.tx != t && Holds(db, t, c)
    ensures var db' := Act(subscribed, db, a);
            && Session(db', t) == Session(db, t) && Holds(db', t, c)
            && RowsOf(db'.rows, c) == RowsOf(db.rows, c)
  {
    hide *;
    if a.Commit? || a.Rollback? {
      OtherClosing(subscribed, db, a, t, c);
    } else {
      OtherWorking(subscribed, db, a, t, c);
    }
  }

  lemma {:induction false} OthersLeaveAlone(
    subscribed: set<CompanyId>, run: Run<Action>, base: Run<Action>, t: TxId, c: CompanyId)
    requires OnlyOn(subscribed, run) && OthersStep(run, base, t) && Holds(After(subscribed, base), t, c)
    ensures var (was, db) := (After(subscribed, base), After(subscribed, run));
            Session(db, t) == Session(was, t) && Holds(db, t, c) && RowsOf(db.rows, c) == RowsOf(was.rows, c)
  {
    if run != base {
      OthersLeaveAlone(subscribed, run.before, base, t, c);
      RunIsSerial(subscribed, run.before);
      hide Act, Serial, Session, Holds, RowsOf;
      OtherLeavesAlone(subscribed, After(subscribed, run.before), run.last, t, c);
    }
  }

  lemma {:induction false} OnlyOnBefore(subscribed: set<CompanyId>, run: Run<Action>, base: Run<Action>, t: TxId)
    requires OnlyOn(subscribed, run) && OthersStep(run, base, t)
    ensures OnlyOn(subscribed, base)
  {
    if run != base {
      OnlyOnBefore(subscribed, run.before, base, t);
    }
  }

  /** A transaction that starts alone on a company: it gets the lock. */
  lemma LockIsGranted(subscribed: set<CompanyId>, db: Database, t: TxId, op: Op)
    requires op.company in subscribed && t !in db.open && op.company !in db.locks
    ensures var db' := Act(subscribed, db, Lock(t, op));
            && Session(db', t) == Transaction(Locked(op), [], []) && Holds(db', t, op.company)
            && db'.rows == db.rows
  {
  }

  lemma BalanceIsRead(subscribed: set<CompanyId>, db: Database, t: TxId, op: Op)
    requires Session(db, t) == Transaction(Locked(op), [], []) && Holds(db, t, op.company)
    ensures var db' := Act(subscribed, db, ReadBalance(t));
            && Session(db', t) == Transaction(Read(op, Balance(db.rows, op.company)), [], [])
            && Holds(db', t, op.company) && db'.rows == db.rows
  {
    assert db.rows + [] == db.rows;
  }

  lemma RowIsAppended(subscribed: set<CompanyId>, db: Database, t: TxId, op: Op, balance: int, at: int)
    requires Session(db, t) == Transaction(Read(op, balance), [], []) && Holds(db, t, op.company)
    requires Rejects(op, balance) || ClockAdvanced(db.rows, op.company, at)
    ensures var db', e := Act(subscribed, db, Append(t, at)), Entry(op, at);
            && Session(db', t) == (if Rejects(op, balance) then Transaction(Raised, [], [])
                                   else Transaction(Idle, [RowFor(e, balance)], [e]))
            && Holds(db', t, op.company) && db'.rows == db.rows
  {
    assert db.rows + [] == db.rows;
    assert [] + [RowFor(Entry(op, at), balance)] == [RowFor(Entry(op, at), balance)];
    assert [] + [Entry(op, at)] == [Entry(op, at)];
  }

  /** What a company's rows say about it. */
  lemma SameRowsSameBalance(rows: seq<Row>, rows': seq<Row>, c: CompanyId, at: int)
    requires RowsOf(rows, c) == RowsOf(rows', c)
    ensures Balance(rows, c) == Balance(rows', c)
    ensures ClockAdvanced(rows, c, at) <==> ClockAdvanced(rows', c, at)
  {
  }

  /**
   A new transaction locks, reads and appends, on a subscribed company whose lock is free,
   among the steps of others.
   */
  predicate AmongOthers(
    subscribed: set<CompanyId>, before: Run<Action>, t: TxId, op: Op, at: int,
    locked: Run<Action>, read: Run<Action>, appended: Run<Action>)
  {
    && OnlyOn(subscribed, appended) && op.company in subscribed
    && t !in After(subscribed, before).open && op.company !in After(subscribed, before).locks
    && OthersStep(locked, Then(before, Lock(t, op)), t)
    && OthersStep(read, Then(locked, ReadBalance(t)), t)
    && OthersStep(appended, Then(read, Append(t, at)), t)
    && ClockAdvanced(After(subscribed, before).rows, op.company, at)
  }

  /** One row more, for this operation on top of this balance; the transaction is over and the lock free. */
  predicate Wrote(db: Database, done: Database, t: TxId, op: Op, at: int, balance: int) {
    && done.rows == db.rows + [Row(op.company, op.Signed(), op.reason, balance + op.Signed(), at)]
    && done.history == db.history + [Entry(op, at)]
    && t !in done.open && op.company !in done.locks
  }

  predicate WroteNothing(db: Database, done: Database, t: TxId, op: Op) {
    done.rows == db.rows && done.history == db.history && t !in done.open && op.company !in done.locks
  }

  /**
   The state of a transaction that locks, reads and appends, each step whenever it likes,
   among the steps of others.
   */
  lemma OperationIsCarriedOut(
    subscribed: set<CompanyId>, before: Run<Action>, t: TxId, op: Op, at: int,
    locked: Run<Action>, read: Run<Action>, appended: Run<Action>)
    requires AmongOthers(subscribed, before, t, op, at, locked, read, appended)
    ensures var (was, db) := (After(subscribed, before), After(subscribed, appended));
            var balance := Balance(was.rows, op.company);
            && Session(db, t) == (if Rejects(op, balance) then Transaction(Raised, [], [])
                                  else Transaction(Idle, [RowFor(Entry(op, at), balance)], [Entry(op, at)]))
            && Holds(db, t, op.company) && RowsOf(db.rows, op.company) == RowsOf(was.rows, op.company)
  {
    var c := op.company;
    OnlyOnBefore(subscribed, appended, Then(read, Append(t, at)), t);
    OnlyOnBefore(subscribed, read, Then(locked, ReadBalance(t)), t);
    OnlyOnBefore(subscribed, locked, Then(before, Lock(t, op)), t);
    hide Act, Session, Holds, RowsOf, Balance, ClockAdvanced, Rejects, OthersStep;
    LockIsGranted(subscribed, After(subscribed, before), t, op);
    OthersLeaveAlone(subscribed, locked, Then(before, Lock(t, op)), t, c);
    BalanceIsRead(subscribed, After(subscribed, locked), t, op);
    OthersLeaveAlone(subscribed, read, Then(locked, ReadBalance(t)), t, c);
    SameRowsSameBalance(After(subscribed, before).rows, After(subscribed, locked).rows, c, at);
    SameRowsSameBalance(After(subscribed, before).rows, After(subscribed, read).rows, c, at);
    RowIsAppended(subscribed, After(subscribed, read), t, op, Balance(After(subscribed, before).rows, c), at);
    OthersLeaveAlone(subscribed, appended, Then(read, Append(t, at)), t, c);
  }

  /**
   A transaction on a subscribed company whose lock is free completes, whatever the others
   do between its steps: unless the balance is too small, its commit adds exactly the one row
   for its operation, on top of the balance that stood when it took the lock; if it is too
   small nothing is written; and either way the lock is free again.
   */
  lemma TransactionCompletes(
    subscribed: set<CompanyId>, before: Run<Action>, t: TxId, op: Op, at: int,
    locked: Run<Action>, read: Run<Action>, appended: Run<Action>)
    requires AmongOthers(subscribed, before, t, op, at, locked, read, appended)
    ensures var db, balance := After(subscribed, appended), Balance(After(subscribed, before).rows, op.company);
            if Rejects(op, balance) then WroteNothing(db, After(subscribed, Then(appended, Rollback(t))), t, op)
            else Wrote(db, After(subscribed, Then(appended, Commit(t))), t, op, at, balance)
  {
    hide *;
    OperationIsCarriedOut(subscribed, before, t, op, at, locked, read, appended);
    CommitWrites(subscribed, appended, t, op, at, Balance(After(subscribed, before).rows, op.company));
    RollbackWritesNothing(subscribed, appended, t, op);
  }

  lemma CommitWrites(subscribed: set<CompanyId>, run: Run<Action>, t: TxId, op: Op, at: int, balance: int)
    ensures var e, db := Entry(op, at), After(subscribed, run);
            Session(db, t) == Transaction(Idle, [RowFor(e, balance)], [e]) && Holds(db, t, op.company) ==>
              Wrote(db, After(subscribed, Then(run, Commit(t))), t, op, at, balance)
  {
    var db := After(subscribed, run);
    assert After(subscribed, Then(run, Commit(t))) == Act(subscribed, db, Commit(t));
    hide After;
  }

  lemma RollbackWritesNothing(subscribed: set<CompanyId>, run: Run<Action>, t: TxId, op: Op)
    ensures var db := After(subscribed, run);
            Holds(db, t, op.company) ==> WroteNothing(db, After(subscribed, Then(run, Rollback(t))), t, op)
  {
    var db := After(subscribed, run);
    assert After(subscribed, Then(run, Rollback(t))) == Act(subscribed, db, Rollback(t));
    hide After;
  }
}
