/**
 The append-only credit ledger (api/services/subscriptions.py): a company's balance is
 the `balance_after` of its newest row, and a mutation reads that row and appends
 another.
 */
module CreditLedger {
  import opened Outcomes

  type CompanyId = nat

  datatype Reason =
    | SubscriptionGrant | PlanUpgrade | DowngradeAdjustment | MonthlyReset | ManualGrant
    | Usage | MarketplacePurchase | MarketplaceSale

  datatype Row = Row(company: CompanyId, amount: int, reason: Reason, balanceAfter: int, createdAt: int)

  function RowsOf(rows: seq<Row>, c: CompanyId): seq<Row> {
    if rows == [] then [] else
      var last := rows[|rows| - 1];
      RowsOf(rows[..|rows| - 1], c) + (if last.company == c then [last] else [])
  }

  /** The row with the greatest `createdAt`; among equals the later one. */
  function Newest(rows: seq<Row>): Option<Row> {
    if rows == [] then None else
      var last := rows[|rows| - 1];
      match Newest(rows[..|rows| - 1])
      case None => Some(last)
      case Some(r) => if r.createdAt > last.createdAt then Some(r) else Some(last)
  }

  /** The balance the platform reports. */
  function Balance(rows: seq<Row>, c: CompanyId): int {
    match Newest(RowsOf(rows, c))
    case None => 0
    case Some(r) => r.balanceAfter
  }

  function Total(rows: seq<Row>): int {
    if rows == [] then 0 else Total(rows[..|rows| - 1]) + rows[|rows| - 1].amount
  }

  // ---------------------------------------------------------------- mutations

  /** A call of `grant_credits` or `deduct_credits`. */
  datatype Op = Grant(company: CompanyId, amount: int, reason: Reason)
              | Deduct(company: CompanyId, amount: int, reason: Reason)
  {
    function Signed(): int {
      if Grant? then amount else -amount
    }
  }

  /** An operation and the instant stamped on the row it writes. */
  datatype Entry = Entry(op: Op, at: int)

  /** Later than every row the company has: the assumption under which "newest" means "last written". */
  predicate ClockAdvanced(rows: seq<Row>, c: CompanyId, at: int) {
    var s := RowsOf(rows, c);
    forall i :: 0 <= i < |s| ==> s[i].createdAt < at
  }

  /** Raises when a deduction exceeds the balance, or when the table's check constraint fails. */
  predicate Rejects(op: Op, balance: int) {
    (op.Deduct? && balance < op.amount) || balance + op.Signed() < 0
  }

  function RowFor(e: Entry, balance: int): Row {
    Row(e.op.company, e.op.Signed(), e.op.reason, balance + e.op.Signed(), e.at)
  }

  /** One operation carried out alone on the table. */
  function Post(rows: seq<Row>, e: Entry): Result<seq<Row>> {
    var balance := Balance(rows, e.op.company);
    if Rejects(e.op, balance) || !ClockAdvanced(rows, e.op.company, e.at) then Err
    else Ok(rows + [RowFor(e, balance)])
  }

  /** Operations carried out one after the other; all must succeed. */
  function PostAll(rows: seq<Row>, es: seq<Entry>): Result<seq<Row>> {
    if es == [] then Ok(rows) else
      match PostAll(rows, es[..|es| - 1])
      case Err => Err
      case Ok(mid) => Post(mid, es[|es| - 1])
  }

  /** What a list of operations adds to one company's balance. */
  function Net(es: seq<Entry>, c: CompanyId): int {
    if es == [] then 0
    else Net(es[..|es| - 1], c) + if es[|es| - 1].op.company == c then es[|es| - 1].op.Signed() else 0
  }

  // ---------------------------------------------------------------- the chain

  function BalanceBefore(s: seq<Row>, i: nat): int
    requires i <= |s|
  {
    if i == 0 then 0 else s[i - 1].balanceAfter
  }

  /** Row `i` follows from the one before: the balance is the one before plus the amount, and not negative. */
  predicate Linked(s: seq<Row>, i: nat)
    requires i < |s|
  {
    && s[i].balanceAfter == BalanceBefore(s, i) + s[i].amount >= 0
    && (i > 0 ==> s[i - 1].createdAt < s[i].createdAt)
  }

  /** The rows of one company form a chain. */
  ghost predicate Chain(s: seq<Row>) {
    forall i :: 0 <= i < |s| ==> Linked(s, i)
  }

  ghost predicate Chained(rows: seq<Row>) {
    forall c :: Chain(RowsOf(rows, c))
  }

  lemma ChainPrefix(s: seq<Row>, n: nat)
    requires Chain(s) && n <= |s|
    ensures Chain(s[..n])
  {
    forall i | 0 <= i < n
      ensures Linked(s[..n], i)
    {
      assert Linked(s, i);
    }
  }

  lemma {:induction false} NewestOfChain(s: seq<Row>)
    requires Chain(s)
    ensures Newest(s) == if s == [] then None else Some(s[|s| - 1])
  {
    if s != [] {
      ChainPrefix(s, |s| - 1);
      assert Linked(s, |s| - 1);
      NewestOfChain(s[..|s| - 1]);
    }
  }

  lemma {:induction false} TotalOfChain(s: seq<Row>)
    requires Chain(s)
    ensures Total(s) == BalanceBefore(s, |s|) >= 0
  {
    if s != [] {
      ChainPrefix(s, |s| - 1);
      assert Linked(s, |s| - 1);
      TotalOfChain(s[..|s| - 1]);
    }
  }

  /** On a chained ledger the reported balance is the sum of all the company's amounts. */
  lemma BalanceIsTotal(rows: seq<Row>, c: CompanyId)
    requires Chain(RowsOf(rows, c))
    ensures Balance(rows, c) == Total(RowsOf(rows, c)) >= 0
  {
    NewestOfChain(RowsOf(rows, c));
    TotalOfChain(RowsOf(rows, c));
  }

  lemma RowsOfAppend(rows: seq<Row>, r: Row, c: CompanyId)
    ensures RowsOf(rows + [r], c) == if r.company == c then RowsOf(rows, c) + [r] else RowsOf(rows, c)
  {
    assert (rows + [r])[..|rows|] == rows;
  }

  lemma ChainAppend(s: seq<Row>, r: Row)
    requires Chain(s)
    requires r.balanceAfter == BalanceBefore(s, |s|) + r.amount >= 0
    requires forall i :: 0 <= i < |s| ==> s[i].createdAt < r.createdAt
    ensures Chain(s + [r])
  {
    forall i | 0 <= i < |s|
      ensures Linked(s + [r], i)
    {
      assert Linked(s, i);
    }
  }

  /** An operation that succeeds keeps the ledger chained, adds its amount and changes no other balance. */
  lemma PostKeepsChain(rows: seq<Row>, e: Entry, c: CompanyId)
    requires Chained(rows) && Post(rows, e).Ok?
    ensures Chain(RowsOf(Post(rows, e).value, c))
    ensures Balance(Post(rows, e).value, c) == Balance(rows, c) + if e.op.company == c then e.op.Signed() else 0
  {
    var balance := Balance(rows, e.op.company);
    var r := RowFor(e, balance);
    RowsOfAppend(rows, r, c);
    NewestOfChain(RowsOf(rows, c));
    if c == e.op.company {
      ChainAppend(RowsOf(rows, c), r);
      NewestOfChain(RowsOf(rows, c) + [r]);
    }
  }

  /**
   Operations that succeed one after the other keep a ledger chained and add exactly their
   amounts to each balance.
   */
  lemma {:induction false} PostAllKeepsChain(rows: seq<Row>, es: seq<Entry>)
    requires Chained(rows) && PostAll(rows, es).Ok?
    ensures Chained(PostAll(rows, es).value)
    ensures forall c :: Balance(PostAll(rows, es).value, c) == Balance(rows, c) + Net(es, c)
  {
    if es != [] {
      var front, e := es[..|es| - 1], es[|es| - 1];
      PostAllKeepsChain(rows, front);
      var mid := PostAll(rows, front).value;
      forall c
        ensures Chain(RowsOf(PostAll(rows, es).value, c))
        ensures Balance(PostAll(rows, es).value, c) == Balance(rows, c) + Net(es, c)
      {
        PostKeepsChain(mid, e, c);
      }
    }
  }

  // ------------------------------------- what an operation depends on

  lemma {:induction false} RowsOfConcat(a: seq<Row>, b: seq<Row>, c: CompanyId)
    ensures RowsOf(a + b, c) == RowsOf(a, c) + RowsOf(b, c)
  {
    if b == [] {
      assert a + b == a;
    } else {
      var front, last := b[..|b| - 1], b[|b| - 1];
      assert a + b == (a + front) + [last] && b == front + [last];
      calc {
        RowsOf(a + b, c);
        { RowsOfAppend(a + front, last, c); }
        if last.company == c then RowsOf(a + front, c) + [last] else RowsOf(a + front, c);
        { RowsOfConcat(a, front, c); }
        RowsOf(a, c) + if last.company == c then RowsOf(front, c) + [last] else RowsOf(front, c);
        { RowsOfAppend(front, last, c); }
        RowsOf(a, c) + RowsOf(b, c);
      }
    }
  }

  predicate Touches(es: seq<Entry>, c: CompanyId) {
    exists i :: 0 <= i < |es| && es[i].op.company == c
  }

  /** Operations see only the rows of their own companies: on any table that agrees there they write the same rows. */
  lemma {:induction false} PostAllElsewhere(rows: seq<Row>, rows': seq<Row>, es: seq<Entry>, written: seq<Row>)
    requires PostAll(rows, es) == Ok(rows + written)
    requires forall c :: Touches(es, c) ==> RowsOf(rows, c) == RowsOf(rows', c)
    ensures PostAll(rows', es) == Ok(rows' + written)
    ensures forall r :: r in written ==> Touches(es, r.company)
  {
    if es == [] {
      assert written == [] && rows' + written == rows';
    } else {
      var front, e := es[..|es| - 1], es[|es| - 1];
      var mid := PostAll(rows, front).value;
      PostAllGrows(rows, front);
      var w := mid[|rows|..];
      assert mid == rows + w;
      forall c | Touches(front, c) ensures Touches(es, c) {
        var i :| 0 <= i < |front| && front[i].op.company == c;
        assert es[i].op.company == c;
      }
      PostAllElsewhere(rows, rows', front, w);
      assert es[|es| - 1].op.company == e.op.company;
      PostElsewhere(rows, rows', w, e);
      var r := RowFor(e, Balance(mid, e.op.company));
      assert rows + written == rows + (w + [r]);
      assert written == (rows + written)[|rows|..] == w + [r];
      assert rows' + written == (rows' + w) + [r];
    }
  }

  lemma PostElsewhere(rows: seq<Row>, rows': seq<Row>, w: seq<Row>, e: Entry)
    requires RowsOf(rows, e.op.company) == RowsOf(rows', e.op.company)
    ensures RowsOf(rows + w, e.op.company) == RowsOf(rows' + w, e.op.company)
    ensures Post(rows + w, e).Ok? ==>
              Post(rows' + w, e) == Ok(rows' + w + [RowFor(e, Balance(rows + w, e.op.company))])
  {
    RowsOfConcat(rows, w, e.op.company);
    RowsOfConcat(rows', w, e.op.company);
  }

  lemma {:induction false} PostAllGrows(rows: seq<Row>, es: seq<Entry>)
    requires PostAll(rows, es).Ok?
    ensures rows <= PostAll(rows, es).value
  {
    if es != [] {
      PostAllGrows(rows, es[..|es| - 1]);
    }
  }

  lemma {:induction false} PostAllConcat(rows: seq<Row>, a: seq<Entry>, b: seq<Entry>)
    ensures PostAll(rows, a + b) ==
            match PostAll(rows, a) case Err => Err case Ok(mid) => PostAll(mid, b)
  {
    if b == [] {
      assert a + b == a;
    } else {
      PostAllConcat(rows, a, b[..|b| - 1]);
      assert (a + b)[..|a + b| - 1] == a + b[..|b| - 1];
    }
  }
}
