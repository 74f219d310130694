/**
 Credit mutations as concurrent database transactions (api/services/subscriptions.py).
 A transaction performs any number of grants and deductions; each one locks the
 company's subscription row, reads the newest ledger row, appends another, and the
 locks are held until commit or rollback.  Steps of different transactions interleave
 in any order; a step that is not possible in a state leaves it unchanged.
 */
module LedgerTransactions {
  import opened CreditLedger
  import opened Outcomes
  import opened Runs

  type TxId = nat

  datatype Phase =
    | Idle                          // between operations
    | Locked(op: Op)                // past the lock statement
    | Read(op: Op, balance: int)    // past the read
    | Raised                        // an operation raised: only rollback is left

  /** A transaction: where it is, the rows it has written and the operations that wrote them. */
  datatype Transaction = Transaction(phase: Phase, pending: seq<Row>, done: seq<Entry>)

  /** The committed table and its history in commit order, the open transactions, and the row locks. */
  datatype Database = Database(
    rows: seq<Row>, history: seq<Entry>,
    open: map<TxId, Transaction>, locks: map<CompanyId, TxId>)

  datatype Action =
    | Lock(tx: TxId, op: Op)
    | ReadBalance(tx: TxId)
    | Append(tx: TxId, at: int)
    | Commit(tx: TxId)
    | Rollback(tx: TxId)

  const EMPTY_DATABASE := Database([], [], map[], map[])

  function Session(db: Database, t: TxId): Transaction {
    if t in db.open then db.open[t] else Transaction(Idle, [], [])
  }

  function Close(db: Database, t: TxId): Database {
    db.(open := db.open - {t}, locks := map c | c in db.locks && db.locks[c] != t :: db.locks[c])
  }

  /** One step.  `subscribed` are the companies that have a subscription row to lock. */
  function Act(subscribed: set<CompanyId>, db: Database, a: Action): Database {
    var s := Session(db, a.tx);
    match a
    case Lock(t, op) =>
      if s.phase != Idle then db
      else if op.company !in subscribed then db.(open := db.open[t := s.(phase := Locked(op))])
      else if op.company in db.locks && db.locks[op.company] != t then db
      else db.(open := db.open[t := s.(phase := Locked(op))], locks := db.locks[op.company := t])
    case ReadBalance(t) =>
      if !s.phase.Locked? then db else
        var op := s.phase.op;
        db.(open := db.open[t := s.(phase := Read(op, Balance(db.rows + s.pending, op.company)))])
    case Append(t, at) =>
      if !s.phase.Read? then db else
        var op, balance := s.phase.op, s.phase.balance;
        if Rejects(op, balance) then db.(open := db.open[t := s.(phase := Raised)])
        else if !ClockAdvanced(db.rows + s.pending, op.company, at) then db
        else
          var e := Entry(op, at);
          db.(open := db.open[t := Transaction(Idle, s.pending + [RowFor(e, balance)], s.done + [e])])
    case Commit(t) =>
      if s.phase != Idle then db
      else Close(db.(rows := db.rows + s.pending, history := db.history + s.done), t)
    case Rollback(t) => Close(db, t)
  }

  function After(subscribed: set<CompanyId>, run: Run<Action>): Database {
    match run
    case Start => EMPTY_DATABASE
    case Then(before, a) => Act(subscribed, After(subscribed, before), a)
  }

  /** Every operation of the run is on a company that has a subscription row. */
  predicate OnlyOn(companies: set<CompanyId>, run: Run<Action>) {
    run.Then? ==> (run.last.Lock? ==> run.last.op.company in companies) && OnlyOn(companies, run.before)
  }

  // ---------------------------------------------------------------- the invariant

  predicate Holds(db: Database, t: TxId, c: CompanyId) {
    c in db.locks && db.locks[c] == t
  }

  /** An open transaction holds the locks of what it has done and what it is doing, and has read no stale balance. */
  ghost predicate SessionOk(db: Database, t: TxId, s: Transaction) {
    && PostAll(db.rows, s.done) == Ok(db.rows + s.pending)
    && (forall i :: 0 <= i < |s.done| ==> Holds(db, t, s.done[i].op.company))
    && (s.phase.Locked? || s.phase.Read? ==> Holds(db, t, s.phase.op.company))
    && (s.phase.Read? ==> s.phase.balance == Balance(db.rows + s.pending, s.phase.op.company))
  }

  /** The committed table is what its history leaves when carried out alone, one operation after the other. */
  ghost predicate Serial(db: Database) {
    && PostAll([], db.history) == Ok(db.rows)
    && (forall t :: t in db.open ==> SessionOk(db, t, db.open[t]))
  }

  lemma FreshSessionOk(db: Database, t: TxId)
    ensures SessionOk(db, t, Transaction(Idle, [], []))
  {
    assert db.rows + [] == db.rows;
  }

  /** A session stays good when others change locks it does not hold. */
  lemma SessionKept(db: Database, db': Database, t: TxId, s: Transaction)
    requires SessionOk(db, t, s) && db'.rows == db.rows
    requires forall c :: Holds(db, t, c) ==> Holds(db', t, c)
    ensures SessionOk(db', t, s)
  {
  }

  lemma LockKeepsSerial(subscribed: set<CompanyId>, db: Database, t: TxId, op: Op)
    requires Serial(db) && op.company in subscribed
    ensures Serial(Act(subscribed, db, Lock(t, op)))
  {
    var db' := Act(subscribed, db, Lock(t, op));
    FreshSessionOk(db, t);
    forall u | u in db'.open
      ensures SessionOk(db', u, db'.open[u])
    {
      if u == t {
        SessionKept(db, db', t, Session(db, t));
      } else {
        SessionKept(db, db', u, db.open[u]);
      }
    }
  }

  lemma ReadKeepsSerial(subscribed: set<CompanyId>, db: Database, t: TxId)
    requires Serial(db)
    ensures Serial(Act(subscribed, db, ReadBalance(t)))
  {
    var db' := Act(subscribed, db, ReadBalance(t));
    forall u | u in db'.open
      ensures SessionOk(db', u, db'.open[u])
    {
      SessionKept(db, db', u, Session(db, u));
    }
  }

  /** Appending changes nothing but the transaction's own session. */
  lemma AppendFrame(subscribed: set<CompanyId>, db: Database, t: TxId, at: int)
    ensures var db' := Act(subscribed, db, Append(t, at));
            && db'.rows == db.rows && db'.history == db.history && db'.locks == db.locks
            && (forall u :: u in db'.open && u != t ==> u in db.open && db'.open[u] == db.open[u])
  {
  }

  lemma AppendKeepsSession(subscribed: set<CompanyId>, db: Database, t: TxId, at: int)
    requires SessionOk(db, t, Session(db, t))
    ensures var db' := Act(subscribed, db, Append(t, at)); t in db'.open ==> SessionOk(db', t, db'.open[t])
  {
    var db', s := Act(subscribed, db, Append(t, at)), Session(db, t);
    SessionKept(db, db', t, s);
    if db' != db && db'.open[t].phase == Idle {
      var e := Entry(s.phase.op, at);
      var s' := db'.open[t];
      assert s'.done[..|s'.done| - 1] == s.done;
      assert db.rows + s'.pending == (db.rows + s.pending) + [RowFor(e, s.phase.balance)];
    }
  }

  lemma AppendKeepsSerial(subscribed: set<CompanyId>, db: Database, t: TxId, at: int)
    requires Serial(db)
    ensures Serial(Act(subscribed, db, Append(t, at)))
  {
    var db' := Act(subscribed, db, Append(t, at));
    FreshSessionOk(db, t);
    AppendFrame(subscribed, db, t, at);
    AppendKeepsSession(subscribed, db, t, at);
    hide Act, SessionOk;
    forall u | u in db'.open
      ensures SessionOk(db', u, db'.open[u])
    {
      if u != t {
        SessionKept(db, db', u, db.open[u]);
      }
    }
    assert Serial(db');
  }

  lemma RollbackKeepsSerial(subscribed: set<CompanyId>, db: Database, t: TxId)
    requires Serial(db)
    ensures Serial(Act(subscribed, db, Rollback(t)))
  {
    var db' := Close(db, t);
    forall u | u in db'.open
      ensures SessionOk(db', u, db'.open[u])
    {
      SessionKept(db, db', u, db.open[u]);
    }
  }

  /** Committed rows of one transaction do not disturb another: the locks keep their companies apart. */
  lemma SessionSurvivesCommit(db: Database, t: TxId, s: Transaction, u: TxId, o: Transaction)
    requires SessionOk(db, t, s) && SessionOk(db, u, o) && t != u
    ensures SessionOk(db.(rows := db.rows + s.pending), u, o)
  {
    var rows' := db.rows + s.pending;
    PostAllElsewhere(db.rows, db.rows, s.done, s.pending);
    forall c | Holds(db, u, c)
      ensures RowsOf(rows', c) == RowsOf(db.rows, c)
      ensures RowsOf(rows' + o.pending, c) == RowsOf(db.rows + o.pending, c)
    {
      NoRowsOf(s.pending, c);
      RowsOfConcat(db.rows, s.pending, c);
      RowsOfConcat(rows', o.pending, c);
      RowsOfConcat(db.rows, o.pending, c);
    }
    PostAllElsewhere(db.rows, rows', o.done, o.pending);
  }

  lemma {:induction false} NoRowsOf(rows: seq<Row>, c: CompanyId)
    requires forall r :: r in rows ==> r.company != c
    ensures RowsOf(rows, c) == []
  {
    if rows != [] {
      NoRowsOf(rows[..|rows| - 1], c);
    }
  }

  lemma CommitKeepsSerial(subscribed: set<CompanyId>, db: Database, t: TxId)
    requires Serial(db)
    ensures Serial(Act(subscribed, db, Commit(t)))
  {
    var s := Session(db, t);
    if s.phase == Idle {
      FreshSessionOk(db, t);
      var mid := db.(rows := db.rows + s.pending, history := db.history + s.done);
      var db' := Close(mid, t);
      PostAllConcat([], db.history, s.done);
      forall u | u in db'.open
        ensures SessionOk(db', u, db'.open[u])
      {
        SessionSurvivesCommit(db, t, s, u, db.open[u]);
        SessionKept(db.(rows := mid.rows), db', u, db.open[u]);
      }
    }
  }

  lemma {:induction false} RunIsSerial(subscribed: set<CompanyId>, run: Run<Action>)
    requires OnlyOn(subscribed, run)
    ensures Serial(After(subscribed, run))
  {
    match run
    case Start =>
    case Then(before, a) =>
      RunIsSerial(subscribed, before);
      var db := After(subscribed, before);
      match a
      case Lock(t, op) => LockKeepsSerial(subscribed, db, t, op);
      case ReadBalance(t) => ReadKeepsSerial(subscribed, db, t);
      case Append(t, at) => AppendKeepsSerial(subscribed, db, t, at);
      case Commit(t) => CommitKeepsSerial(subscribed, db, t);
      case Rollback(t) => RollbackKeepsSerial(subscribed, db, t);
  }

  // ---------------------------------------------------------------- main results

  /**
   Whatever the interleaving: the committed table is what the committed operations
   leave when carried out alone in commit order; every company's rows are a chain;
   and its balance is the sum of its row amounts and of its committed operations.
   */
  lemma EveryInterleavingIsSerial(subscribed: set<CompanyId>, run: Run<Action>, c: CompanyId)
    requires OnlyOn(subscribed, run)
    ensures var db := After(subscribed, run);
            && PostAll([], db.history) == Ok(db.rows)
            && Chain(RowsOf(db.rows, c))
            && Balance(db.rows, c) == Total(RowsOf(db.rows, c)) == Net(db.history, c) >= 0
  {
    var db := After(subscribed, run);
    RunIsSerial(subscribed, run);
    PostAllKeepsChain([], db.history);
    BalanceIsTotal(db.rows, c);
  }

  /** A deduction is refused only for a balance that really is too small: no open transaction has read a stale one. */
  lemma NoStaleBalance(subscribed: set<CompanyId>, run: Run<Action>, t: TxId)
    requires OnlyOn(subscribed, run)
    ensures var db := After(subscribed, run);
            var s := Session(db, t);
            s.phase.Read? ==>
              s.phase.balance == Balance(db.rows, s.phase.op.company) + Net(s.done, s.phase.op.company)
  {
    var db := After(subscribed, run);
    var s := Session(db, t);
    RunIsSerial(subscribed, run);
    if s.phase.Read? {
      PostAllKeepsChain([], db.history);
      PostAllKeepsChain(db.rows, s.done);
    }
  }

  /** Two grants whose steps interleave: both have read before either appends. */
  function RaceUpToReads(op: Op): Run<Action> {
    Then(Then(Then(Then(Start, Lock(0, op)), Lock(1, op)), ReadBalance(0)), ReadBalance(1))
  }

  function Race(op: Op): Run<Action> {
    Then(Then(Then(Then(RaceUpToReads(op), Append(0, 0)), Append(1, 1)), Commit(0)), Commit(1))
  }

  lemma BothRead(subscribed: set<CompanyId>, op: Op)
    requires op.company !in subscribed
    ensures var read := Transaction(Read(op, 0), [], []);
            After(subscribed, RaceUpToReads(op)) == Database([], [], map[0 := read, 1 := read], map[])
  {
    var locked, read := Transaction(Locked(op), [], []), Transaction(Read(op, 0), [], []);
    var run := Then(Start, Lock(0, op));
    assert After(subscribed, run) == Database([], [], map[0 := locked], map[]);
    run := Then(run, Lock(1, op));
    assert After(subscribed, run) == Database([], [], map[0 := locked, 1 := locked], map[]);
    run := Then(run, ReadBalance(0));
    assert After(subscribed, run) == Database([], [], map[0 := read, 1 := locked], map[]);
    run := Then(run, ReadBalance(1));
    assert After(subscribed, run) == Database([], [], map[0 := read, 1 := read], map[]);
  }

  /** What an appending step writes for a transaction that has written nothing yet. */
  lemma FirstAppend(subscribed: set<CompanyId>, db: Database, t: TxId, op: Op, at: int)
    requires db.rows == [] && t in db.open && db.open[t] == Transaction(Read(op, 0), [], []) && !Rejects(op, 0)
    ensures var e := Entry(op, at);
            Act(subscribed, db, Append(t, at)) == db.(open := db.open[t := Transaction(Idle, [RowFor(e, 0)], [e])])
  {
    var s, e := Session(db, t), Entry(op, at);
    assert s.pending + [RowFor(e, 0)] == [RowFor(e, 0)] && s.done + [e] == [e];
    assert db.rows + s.pending == [];
  }

  lemma RaceRows(subscribed: set<CompanyId>, op: Op)
    requires op.company !in subscribed && !Rejects(op, 0)
    ensures After(subscribed, Race(op)).rows == [RowFor(Entry(op, 0), 0), RowFor(Entry(op, 1), 0)]
  {
    var run := RaceUpToReads(op);
    BothRead(subscribed, op);
    FirstAppend(subscribed, After(subscribed, run), 0, op, 0);
    run := Then(run, Append(0, 0));
    FirstAppend(subscribed, After(subscribed, run), 1, op, 1);
    run := Then(run, Append(1, 1));
    var db := After(subscribed, run);
    run := Then(run, Commit(0));
    assert After(subscribed, run).rows == [RowFor(Entry(op, 0), 0)];
    assert Session(After(subscribed, run), 1) == Session(db, 1);
    run := Then(run, Commit(1));
    assert run == Race(op);
  }

  lemma RaceLosesAnUpdate(subscribed: set<CompanyId>, c: CompanyId)
    requires c !in subscribed
    ensures var run := Race(Grant(c, 10, ManualGrant));
            var rows := After(subscribed, run).rows;
            OnlyOn({c}, run) && Balance(rows, c) == 10 && Total(RowsOf(rows, c)) == 20
  {
    var op := Grant(c, 10, ManualGrant);
    assert OnlyOn({c}, RaceUpToReads(op)) by {
      assert OnlyOn({c}, Then(Then(Start, Lock(0, op)), Lock(1, op)));
    }
    assert OnlyOn({c}, Then(Then(RaceUpToReads(op), Append(0, 0)), Append(1, 1)));
    RaceRows(subscribed, op);
    TwoRows(RowFor(Entry(op, 0), 0), RowFor(Entry(op, 1), 0));
  }

  lemma TwoRows(r0: Row, r1: Row)
    requires r0.company == r1.company && r0.createdAt < r1.createdAt
    ensures Balance([r0, r1], r0.company) == r1.balanceAfter
    ensures Total(RowsOf([r0, r1], r0.company)) == r0.amount + r1.amount
  {
    var c := r0.company;
    assert [] + [r0] == [r0] && [r0] + [r1] == [r0, r1];
    RowsOfAppend([], r0, c);
    RowsOfAppend([r0], r1, c);
    assert RowsOf([r0, r1], c) == [r0, r1];
    assert [r0, r1][..1] == [r0] && [r0][..0] == [];
    assert Newest([r0]) == Some(r0) && Total([r0]) == r0.amount;
  }

  /**
   The lock on the subscription row is what all this rests on: a company's balance
   agrees with its rows in every run on it exactly when it has that row.
   */
  lemma BalancesAgreeIffSubscribed(subscribed: set<CompanyId>, c: CompanyId)
    ensures (forall run :: OnlyOn({c}, run) ==>
              var rows := After(subscribed, run).rows; Balance(rows, c) == Total(RowsOf(rows, c)))
            <==> c in subscribed
  {
    if c in subscribed {
      forall run | OnlyOn({c}, run)
        ensures var rows := After(subscribed, run).rows; Balance(rows, c) == Total(RowsOf(rows, c))
      {
        OnlyOnMonotone({c}, subscribed, run);
        EveryInterleavingIsSerial(subscribed, run, c);
      }
    } else {
      RaceLosesAnUpdate(subscribed, c);
    }
  }

  lemma {:induction false} OnlyOnMonotone(a: set<CompanyId>, b: set<CompanyId>, run: Run<Action>)
    requires a <= b && OnlyOn(a, run)
    ensures OnlyOn(b, run)
  {
    if run.Then? {
      OnlyOnMonotone(a, b, run.before);
    }
  }
}
