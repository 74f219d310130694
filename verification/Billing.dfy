/**
 Plans, usage, manual grants, the marketplace and the monthly top-up on one credit
 ledger, one request at a time (api/services/subscriptions.py, marketplace.py and the
 reset in scheduler.py).  A request that raises is rolled back and changes nothing.
 */
module Billing {
  import opened CreditLedger
  import opened Outcomes
  import opened Runs

  datatype Plan = Free | Pro | Enterprise

  function Monthly(plan: Plan): nat {
    match plan
    case Free => 100
    case Pro => 1000
    case Enterprise => 10000
  }

  function PlanNamed(name: string): Option<Plan> {
    if name == "free" then Some(Free)
    else if name == "pro" then Some(Pro)
    else if name == "enterprise" then Some(Enterprise)
    else None
  }

  datatype Operation = Estimate | PdfExport | QuestionnaireExtract | ScenarioCompute | Uncharged

  function Cost(op: Operation): nat {
    match op
    case Estimate => 10
    case PdfExport => 5
    case QuestionnaireExtract => 5
    case ScenarioCompute => 3
    case Uncharged => 0
  }

  type ListingId = nat

  datatype Listing = Listing(seller: CompanyId, price: nat, active: bool)

  datatype Purchase = Purchase(listing: ListingId, buyer: CompanyId, price: nat)

  /** The tables, and the instant the next ledger row will be stamped with. */
  datatype Platform = Platform(
    rows: seq<Row>, clock: int, plans: map<CompanyId, Plan>,
    listings: map<ListingId, Listing>, purchases: seq<Purchase>)

  const NEW_PLATFORM := Platform([], 0, map[], map[], [])

  // ---------------------------------------------------------------- requests

  function Mutate(p: Platform, op: Op): Result<Platform> {
    match Post(p.rows, Entry(op, p.clock))
    case Err => Err
    case Ok(rows) => Ok(p.(rows := rows, clock := p.clock + 1))
  }

  function GetOrCreate(p: Platform, c: CompanyId): Result<Platform> {
    if c in p.plans then Ok(p)
    else Mutate(p.(plans := p.plans[c := Free]), Grant(c, Monthly(Free), SubscriptionGrant))
  }

  function SwitchPlan(p: Platform, c: CompanyId, plan: Plan): Result<Platform>
    requires c in p.plans
  {
    var was, will := Monthly(p.plans[c]), Monthly(plan);
    var q := p.(plans := p.plans[c := plan]);
    if will > was then Mutate(q, Grant(c, will - was, PlanUpgrade))
    else if will < was && Balance(q.rows, c) > will then
      Mutate(q, Deduct(c, Balance(q.rows, c) - will, DowngradeAdjustment))
    else Ok(q)
  }

  function ChangePlan(p: Platform, c: CompanyId, name: string): Result<Platform> {
    match PlanNamed(name)
    case None => Err
    case Some(plan) =>
      match GetOrCreate(p, c)
      case Err => Err
      case Ok(q) => if c in q.plans then SwitchPlan(q, c, plan) else Err
  }

  function UseCredits(p: Platform, c: CompanyId, op: Operation): Result<Platform> {
    match GetOrCreate(p, c)
    case Err => Err
    case Ok(q) => if Cost(op) > 0 then Mutate(q, Deduct(c, Cost(op), Usage)) else Ok(q)
  }

  /** An administrator's grant; the subscription is created after it, if at all. */
  function GrantManually(p: Platform, c: CompanyId, amount: int): Result<Platform> {
    if amount <= 0 then Err else
      match Mutate(p, Grant(c, amount, ManualGrant))
      case Err => Err
      case Ok(q) => GetOrCreate(q, c)
  }

  function ListReport(p: Platform, id: ListingId, seller: CompanyId, price: nat): Result<Platform> {
    if id in p.listings then Err
    else Ok(p.(listings := p.listings[id := Listing(seller, price, true)]))
  }

  function Withdraw(p: Platform, id: ListingId, c: CompanyId): Result<Platform> {
    if id !in p.listings || !p.listings[id].active || p.listings[id].seller != c then Err
    else Ok(p.(listings := p.listings[id := p.listings[id].(active := false)]))
  }

  predicate Bought(ps: seq<Purchase>, id: ListingId, buyer: CompanyId) {
    exists i :: 0 <= i < |ps| && ps[i].listing == id && ps[i].buyer == buyer
  }

  function Buy(p: Platform, id: ListingId, buyer: CompanyId): Result<Platform> {
    if id !in p.listings || !p.listings[id].active then Err else
      var l := p.listings[id];
      if l.seller == buyer || Bought(p.purchases, id, buyer) then Err else
        var q := p.(purchases := p.purchases + [Purchase(id, buyer, l.price)]);
        if l.price == 0 then Ok(q) else
          match Mutate(q, Deduct(buyer, l.price, MarketplacePurchase))
          case Err => Err
          case Ok(paid) => Mutate(paid, Grant(l.seller, l.price, MarketplaceSale))
  }

  /** The monthly reset of one company, inside its own savepoint. */
  function ResetOne(p: Platform, c: CompanyId): Platform {
    match GetOrCreate(p, c)
    case Err => p
    case Ok(q) =>
      var monthly := if c in q.plans then Monthly(q.plans[c]) else Monthly(Free);
      var balance := Balance(q.rows, c);
      if monthly <= balance then q else
        match Mutate(q, Grant(c, monthly - balance, MonthlyReset))
        case Err => p
        case Ok(r) => r
  }

  function ResetAll(p: Platform, cs: seq<CompanyId>): Platform {
    if cs == [] then p else ResetOne(ResetAll(p, cs[..|cs| - 1]), cs[|cs| - 1])
  }

  datatype Request =
    | Subscribing(company: CompanyId)
    | ChangingPlan(company: CompanyId, plan: string)
    | Using(company: CompanyId, operation: Operation)
    | Granting(company: CompanyId, amount: int)
    | Offering(id: ListingId, seller: CompanyId, price: nat)
    | Withdrawing(id: ListingId, company: CompanyId)
    | Buying(id: ListingId, buyer: CompanyId)
    | Resetting(companies: seq<CompanyId>)

  /** The outcome of one request: an error, or the new tables. */
  function Serve(p: Platform, r: Request): Result<Platform> {
    match r
    case Subscribing(c) => GetOrCreate(p, c)
    case ChangingPlan(c, name) => ChangePlan(p, c, name)
    case Using(c, op) => UseCredits(p, c, op)
    case Granting(c, amount) => GrantManually(p, c, amount)
    case Offering(id, c, price) => ListReport(p, id, c, price)
    case Withdrawing(id, c) => Withdraw(p, id, c)
    case Buying(id, c) => Buy(p, id, c)
    case Resetting(cs) => Ok(ResetAll(p, cs))
  }

  function Step(p: Platform, r: Request): Platform {
    match Serve(p, r)
    case Err => p
    case Ok(q) => q
  }

  function After(run: Run<Request>): Platform {
    match run
    case Start => NEW_PLATFORM
    case Then(before, r) => Step(After(before), r)
  }

  // ---------------------------------------------------------------- what is invariant

  /** Sum of the amounts booked for one of the given reasons. */
  function SumFor(rows: seq<Row>, reasons: set<Reason>): int {
    if rows == [] then 0 else
      var last := rows[|rows| - 1];
      SumFor(rows[..|rows| - 1], reasons) + if last.reason in reasons then last.amount else 0
  }

  /** Credits a company got by manual grants and sales, not by its plan. */
  function Received(p: Platform, c: CompanyId): int {
    SumFor(RowsOf(p.rows, c), {ManualGrant, MarketplaceSale})
  }

  function SalesBooked(p: Platform, c: CompanyId): int {
    SumFor(RowsOf(p.rows, c), {MarketplaceSale})
  }

  function UsageBooked(p: Platform, c: CompanyId): int {
    SumFor(RowsOf(p.rows, c), {Usage})
  }

  function PurchasesBooked(p: Platform, c: CompanyId): int {
    SumFor(RowsOf(p.rows, c), {MarketplacePurchase})
  }

  function Allowance(p: Platform, c: CompanyId): nat {
    if c in p.plans then Monthly(p.plans[c]) else 0
  }

  /** `get_seller_revenue`: the prices of the purchases of the seller's listings. */
  function Revenue(ps: seq<Purchase>, listings: map<ListingId, Listing>, c: CompanyId): nat {
    if ps == [] then 0 else
      var last := ps[|ps| - 1];
      Revenue(ps[..|ps| - 1], listings, c)
      + if last.listing in listings && listings[last.listing].seller == c then last.price else 0
  }

  ghost predicate CompanyOk(p: Platform, c: CompanyId) {
    Chain(RowsOf(p.rows, c)) && ClockAdvanced(p.rows, c, p.clock)
  }

  ghost predicate LedgerOk(p: Platform) {
    forall c :: CompanyOk(p, c)
  }

  /** Each company bought a listing at most once, never its own, at its price; and sales are booked as revenue. */
  ghost predicate MarketOk(p: Platform) {
    && (forall i, j :: 0 <= i < j < |p.purchases| ==>
          p.purchases[i].listing != p.purchases[j].listing || p.purchases[i].buyer != p.purchases[j].buyer)
    && (forall i :: 0 <= i < |p.purchases| ==> FairPurchase(p, p.purchases[i]))
    && (forall c :: Revenue(p.purchases, p.listings, c) == SalesBooked(p, c))
  }

  predicate FairPurchase(p: Platform, purchase: Purchase) {
    && purchase.listing in p.listings
    && purchase.buyer != p.listings[purchase.listing].seller
    && purchase.price == p.listings[purchase.listing].price
  }

  /** The figures of one company that ledger mutations change. */
  datatype Figures = Figures(balance: int, received: int, sales: int, used: int, spent: int)

  function FiguresOf(p: Platform, c: CompanyId): Figures {
    Figures(Balance(p.rows, c), Received(p, c), SalesBooked(p, c), UsageBooked(p, c), PurchasesBooked(p, c))
  }

  function Booked(f: Figures, op: Op): Figures {
    Figures(f.balance + op.Signed(),
            f.received + (if op.reason in {ManualGrant, MarketplaceSale} then op.Signed() else 0),
            f.sales + (if op.reason == MarketplaceSale then op.Signed() else 0),
            f.used + (if op.reason == Usage then op.Signed() else 0),
            f.spent + (if op.reason == MarketplacePurchase then op.Signed() else 0))
  }

  // ---------------------------------------------------------------- one ledger mutation

  lemma SumForAppend(rows: seq<Row>, r: Row, reasons: set<Reason>)
    ensures SumFor(rows + [r], reasons) == SumFor(rows, reasons) + if r.reason in reasons then r.amount else 0
  {
    assert (rows + [r])[..|rows|] == rows;
  }

  /** Only a balance too small can stop a mutation. */
  lemma MutateSucceeds(p: Platform, op: Op)
    requires LedgerOk(p)
    ensures Mutate(p, op).Ok? <==> !Rejects(op, Balance(p.rows, op.company))
    ensures Mutate(p, op).Ok? ==>
              Mutate(p, op).value ==
              p.(rows := p.rows + [RowFor(Entry(op, p.clock), Balance(p.rows, op.company))], clock := p.clock + 1)
  {
    assert CompanyOk(p, op.company);
  }

  lemma MutateKeepsCompany(p: Platform, op: Op, c: CompanyId)
    requires LedgerOk(p) && Mutate(p, op).Ok?
    ensures CompanyOk(Mutate(p, op).value, c)
    ensures Balance(Mutate(p, op).value.rows, c) ==
            Balance(p.rows, c) + if c == op.company then op.Signed() else 0
  {
    assert CompanyOk(p, c);
    LedgerIsChained(p);
    PostKeepsChain(p.rows, Entry(op, p.clock), c);
    ClockStaysAhead(p.rows, RowFor(Entry(op, p.clock), Balance(p.rows, op.company)), c, p.clock);
    hide Balance, RowsOf, Chain, ClockAdvanced, Rejects;
  }

  lemma ClockStaysAhead(rows: seq<Row>, r: Row, c: CompanyId, clock: int)
    requires ClockAdvanced(rows, c, clock) && r.createdAt == clock
    ensures ClockAdvanced(rows + [r], c, clock + 1)
  {
    RowsOfAppend(rows, r, c);
  }

  /** What a mutation that succeeds does to every company's figures. */
  lemma MutateFigures(p: Platform, op: Op, c: CompanyId)
    requires LedgerOk(p) && Mutate(p, op).Ok?
    ensures FiguresOf(Mutate(p, op).value, c)
         == if c == op.company then Booked(FiguresOf(p, c), op) else FiguresOf(p, c)
  {
    hide Mutate, LedgerOk, Balance, RowsOf, SumFor, Rejects;
    var r := RowFor(Entry(op, p.clock), Balance(p.rows, op.company));
    MutateSucceeds(p, op);
    MutateKeepsCompany(p, op, c);
    SumsAfterAppend(p.rows, r, c, {ManualGrant, MarketplaceSale});
    SumsAfterAppend(p.rows, r, c, {MarketplaceSale});
    SumsAfterAppend(p.rows, r, c, {Usage});
    SumsAfterAppend(p.rows, r, c, {MarketplacePurchase});
  }

  lemma SumsAfterAppend(rows: seq<Row>, r: Row, c: CompanyId, reasons: set<Reason>)
    ensures SumFor(RowsOf(rows + [r], c), reasons) ==
            SumFor(RowsOf(rows, c), reasons) + if r.company == c && r.reason in reasons then r.amount else 0
  {
    RowsOfAppend(rows, r, c);
    SumForAppend(RowsOf(rows, c), r, reasons);
  }

  lemma LedgerIsChained(p: Platform)
    requires LedgerOk(p)
    ensures Chained(p.rows)
  {
    forall c
      ensures Chain(RowsOf(p.rows, c))
    {
      assert CompanyOk(p, c);
    }
  }

  lemma MutateKeepsLedger(p: Platform, op: Op)
    requires LedgerOk(p)
    ensures Mutate(p, op).Ok? ==> LedgerOk(Mutate(p, op).value)
  {
    if Mutate(p, op).Ok? {
      hide Mutate, CompanyOk, Balance;
      forall c
        ensures CompanyOk(Mutate(p, op).value, c)
      {
        MutateKeepsCompany(p, op, c);
      }
    }
  }

  /** From `p` to `q` only the operation was booked: the other tables and companies are as they were. */
  ghost predicate Books(p: Platform, q: Platform, op: Op) {
    && LedgerOk(q)
    && q.plans == p.plans && q.listings == p.listings && q.purchases == p.purchases
    && (forall c :: FiguresOf(q, c) == if c == op.company then Booked(FiguresOf(p, c), op) else FiguresOf(p, c))
  }

  lemma MutateBooks(p: Platform, op: Op)
    requires LedgerOk(p)
    ensures Mutate(p, op).Ok? <==> !Rejects(op, Balance(p.rows, op.company))
    ensures Mutate(p, op).Ok? ==> Books(p, Mutate(p, op).value, op)
  {
    hide FiguresOf, LedgerOk, Booked, Mutate, Rejects, Balance;
    MutateSucceeds(p, op);
    MutateKeepsLedger(p, op);
    if Mutate(p, op).Ok? {
      forall c
        ensures FiguresOf(Mutate(p, op).value, c) ==
                if c == op.company then Booked(FiguresOf(p, c), op) else FiguresOf(p, c)
      {
        MutateFigures(p, op, c);
      }
    }
  }

  lemma BalanceNotNegative(p: Platform, c: CompanyId)
    requires LedgerOk(p)
    ensures Balance(p.rows, c) >= 0
  {
    assert CompanyOk(p, c);
    BalanceIsTotal(p.rows, c);
  }

  // ---------------------------------------------------- plans and usage

  /** Nothing but the plans and the ledger differ, and only for one company. */
  ghost predicate OnlyCompany(p: Platform, q: Platform, c: CompanyId) {
    && LedgerOk(q)
    && q.listings == p.listings && q.purchases == p.purchases
    && (forall d :: d != c ==> FiguresOf(q, d) == FiguresOf(p, d))
    && (forall d :: d != c ==> Allowance(q, d) == Allowance(p, d))
  }

  lemma GetOrCreateFacts(p: Platform, c: CompanyId)
    requires LedgerOk(p)
    ensures GetOrCreate(p, c).Ok?
    ensures var q := GetOrCreate(p, c).value;
            && OnlyCompany(p, q, c)
            && q.plans == (if c in p.plans then p.plans else p.plans[c := Free])
            && FiguresOf(q, c) ==
                 if c in p.plans then FiguresOf(p, c)
                 else FiguresOf(p, c).(balance := Balance(p.rows, c) + Monthly(Free))
  {
    hide Mutate, LedgerOk, Received, SalesBooked, UsageBooked, PurchasesBooked;
    if c !in p.plans {
      var q := p.(plans := p.plans[c := Free]);
      SameLedger(p, q);
      BalanceNotNegative(p, c);
      MutateBooks(q, Grant(c, Monthly(Free), SubscriptionGrant));
    }
  }

  lemma SameLedger(p: Platform, q: Platform)
    requires LedgerOk(p) && q.rows == p.rows && q.clock == p.clock
    ensures LedgerOk(q)
    ensures forall c :: FiguresOf(q, c) == FiguresOf(p, c)
  {
    forall c
      ensures CompanyOk(q, c)
    {
      assert CompanyOk(p, c);
    }
  }

  /** Switching plans adds the difference on the way up, and leaves at most the new allowance on the way down. */
  lemma SwitchPlanFacts(p: Platform, c: CompanyId, plan: Plan)
    requires LedgerOk(p) && c in p.plans
    ensures SwitchPlan(p, c, plan).Ok?
    ensures var q := SwitchPlan(p, c, plan).value;
            var was, will, balance := Monthly(p.plans[c]), Monthly(plan), Balance(p.rows, c);
            && OnlyCompany(p, q, c)
            && q.plans == p.plans[c := plan]
            && FiguresOf(q, c) == FiguresOf(p, c).(balance :=
                 if will > was then balance + (will - was)
                 else if will < was && balance > will then will
                 else balance)
  {
    hide Mutate, LedgerOk, Received, SalesBooked, UsageBooked, PurchasesBooked;
    var was, will := Monthly(p.plans[c]), Monthly(plan);
    var q := p.(plans := p.plans[c := plan]);
    SameLedger(p, q);
    BalanceNotNegative(p, c);
    if will > was {
      MutateBooks(q, Grant(c, will - was, PlanUpgrade));
    } else if will < was && Balance(q.rows, c) > will {
      MutateBooks(q, Deduct(c, Balance(q.rows, c) - will, DowngradeAdjustment));
    }
  }

  /** A downgrade leaves the smaller of the balance and the new allowance. */
  lemma DowngradeCapsBalance(p: Platform, c: CompanyId, name: string)
    requires LedgerOk(p) && c in p.plans
    requires PlanNamed(name).Some? && Monthly(PlanNamed(name).value) < Monthly(p.plans[c])
    ensures var q := Step(p, ChangingPlan(c, name));
            && q.plans[c] == PlanNamed(name).value
            && Balance(q.rows, c) == Min(Balance(p.rows, c), Monthly(PlanNamed(name).value))
  {
    SwitchPlanFacts(p, c, PlanNamed(name).value);
    var q := Step(p, ChangingPlan(c, name));
    assert FiguresOf(q, c).balance == Balance(q.rows, c);
  }

  function Min(a: int, b: int): int {
    if a < b then a else b
  }

  function Max(a: int, b: int): int {
    if a > b then a else b
  }

  // ---------------------------------------------------- the monthly reset

  lemma ResetOneFacts(p: Platform, c: CompanyId)
    requires LedgerOk(p)
    ensures var q := ResetOne(p, c);
            && OnlyCompany(p, q, c)
            && q.plans == (if c in p.plans then p.plans else p.plans[c := Free])
            && FiguresOf(q, c) == FiguresOf(p, c).(balance :=
                 if c in p.plans then Max(Balance(p.rows, c), Monthly(p.plans[c]))
                 else Balance(p.rows, c) + Monthly(Free))
    ensures c in p.plans && Balance(p.rows, c) >= Monthly(p.plans[c]) ==> ResetOne(p, c) == p
  {
    hide Mutate, LedgerOk, Received, SalesBooked, UsageBooked, PurchasesBooked;
    GetOrCreateFacts(p, c);
    BalanceNotNegative(p, c);
    var q := GetOrCreate(p, c).value;
    assert FiguresOf(q, c).balance == Balance(q.rows, c);
    var topUp := Monthly(q.plans[c]) - Balance(q.rows, c);
    if topUp > 0 {
      MutateBooks(q, Grant(c, topUp, MonthlyReset));
    }
  }

  /**
   The reset tops every listed company up to its allowance, or opens a free plan for it
   where it had none; the others keep what they had.
   */
  lemma {:induction false} ResetAllFacts(p: Platform, cs: seq<CompanyId>, c: CompanyId)
    requires LedgerOk(p)
    ensures var q := ResetAll(p, cs);
            && LedgerOk(q) && q.listings == p.listings && q.purchases == p.purchases
            && Allowance(q, c) == (if c in cs && c !in p.plans then Monthly(Free) else Allowance(p, c))
            && (c in q.plans <==> c in p.plans || c in cs)
            && FiguresOf(q, c) == FiguresOf(p, c).(balance :=
                 if c !in cs then Balance(p.rows, c)
                 else if c in p.plans then Max(Balance(p.rows, c), Monthly(p.plans[c]))
                 else Balance(p.rows, c) + Monthly(Free))
  {
    hide ResetOne, LedgerOk, Received, SalesBooked, UsageBooked, PurchasesBooked;
    if cs != [] {
      var front, last := cs[..|cs| - 1], cs[|cs| - 1];
      assert cs == front + [last];
      ResetAllFacts(p, front, c);
      ResetOneFacts(ResetAll(p, front), last);
      BalanceNotNegative(p, c);
    }
  }

  lemma {:induction false} SettledIsKept(p: Platform, cs: seq<CompanyId>)
    requires LedgerOk(p)
    requires forall c :: c in cs ==> c in p.plans && Monthly(p.plans[c]) <= Balance(p.rows, c)
    ensures ResetAll(p, cs) == p
  {
    hide ResetOne, LedgerOk, Balance;
    if cs != [] {
      SettledIsKept(p, cs[..|cs| - 1]);
      ResetOneFacts(p, cs[|cs| - 1]);
    }
  }

  /** Repeating a reset over the same companies does nothing. */
  lemma ResetTwiceIsOnce(p: Platform, cs: seq<CompanyId>)
    requires LedgerOk(p)
    ensures ResetAll(ResetAll(p, cs), cs) == ResetAll(p, cs)
  {
    hide ResetAll, LedgerOk, Received, SalesBooked, UsageBooked, PurchasesBooked;
    var q := ResetAll(p, cs);
    forall c | c in cs
      ensures c in q.plans && Monthly(q.plans[c]) <= Balance(q.rows, c)
    {
      ResetAllFacts(p, cs, c);
      BalanceNotNegative(p, c);
      assert FiguresOf(q, c).balance == Balance(q.rows, c);
      assert Allowance(q, c) == Monthly(q.plans[c]);
    }
    ResetAllFacts(p, cs, 0);
    SettledIsKept(q, cs);
  }

  // ---------------------------------------------------- the marketplace

  function Moved(f: Figures, c: CompanyId, buyer: CompanyId, seller: CompanyId, price: nat): Figures {
    if c == buyer then f.(balance := f.balance - price, spent := f.spent - price)
    else if c == seller then
      f.(balance := f.balance + price, received := f.received + price, sales := f.sales + price)
    else f
  }

  /** Whether a purchase goes through. */
  predicate CanBuy(p: Platform, id: ListingId, buyer: CompanyId) {
    && id in p.listings && p.listings[id].active
    && p.listings[id].seller != buyer
    && !Bought(p.purchases, id, buyer)
    && p.listings[id].price <= Balance(p.rows, buyer)
  }

  lemma BuyFacts(p: Platform, id: ListingId, buyer: CompanyId)
    requires LedgerOk(p)
    ensures Buy(p, id, buyer).Ok? <==> CanBuy(p, id, buyer)
    ensures Buy(p, id, buyer).Ok? ==>
              var q, l := Buy(p, id, buyer).value, p.listings[id];
              && LedgerOk(q) && q.plans == p.plans && q.listings == p.listings
              && q.purchases == p.purchases + [Purchase(id, buyer, l.price)]
              && (forall c :: FiguresOf(q, c) == Moved(FiguresOf(p, c), c, buyer, l.seller, l.price))
  {
    hide Mutate, LedgerOk, FiguresOf, Bought;
    BalanceNotNegative(p, buyer);
    if id in p.listings && p.listings[id].active && p.listings[id].seller != buyer && !Bought(p.purchases, id, buyer) {
      var l := p.listings[id];
      var q := p.(purchases := p.purchases + [Purchase(id, buyer, l.price)]);
      SameLedger(p, q);
      if l.price > 0 {
        MutateBooks(q, Deduct(buyer, l.price, MarketplacePurchase));
        if l.price <= Balance(p.rows, buyer) {
          var paid := Mutate(q, Deduct(buyer, l.price, MarketplacePurchase)).value;
          BalanceNotNegative(paid, l.seller);
          MutateBooks(paid, Grant(l.seller, l.price, MarketplaceSale));
        }
      }
    }
  }

  function SumOfBalances(p: Platform, cs: seq<CompanyId>): int {
    if cs == [] then 0
    else SumOfBalances(p, cs[..|cs| - 1]) + Balance(p.rows, cs[|cs| - 1])
  }

  predicate NoDuplicates(cs: seq<CompanyId>) {
    forall i, j :: 0 <= i < j < |cs| ==> cs[i] != cs[j]
  }

  lemma {:induction false} SumAfterMove(
    p: Platform, q: Platform, cs: seq<CompanyId>, buyer: CompanyId, seller: CompanyId, price: nat)
    requires NoDuplicates(cs) && buyer != seller
    requires forall c :: FiguresOf(q, c) == Moved(FiguresOf(p, c), c, buyer, seller, price)
    ensures SumOfBalances(q, cs) ==
            SumOfBalances(p, cs) - (if buyer in cs then price else 0) + (if seller in cs then price else 0)
  {
    hide Received, SalesBooked, UsageBooked, PurchasesBooked, Balance;
    if cs != [] {
      var front, last := cs[..|cs| - 1], cs[|cs| - 1];
      SumAfterMove(p, q, front, buyer, seller, price);
      assert cs == front + [last];
      assert last !in front;
      assert FiguresOf(q, last) == Moved(FiguresOf(p, last), last, buyer, seller, price);
    }
  }

  /**
   A purchase either changes nothing, or moves exactly the listing's price from buyer to
   seller: no third company's balance changes and the credits of all companies together
   stay the same.
   */
  lemma PurchaseConservesCredits(p: Platform, id: ListingId, buyer: CompanyId, cs: seq<CompanyId>)
    requires LedgerOk(p)
    requires NoDuplicates(cs) && buyer in cs && (id in p.listings ==> p.listings[id].seller in cs)
    ensures var q := Step(p, Buying(id, buyer));
            && SumOfBalances(q, cs) == SumOfBalances(p, cs)
            && (!CanBuy(p, id, buyer) ==> q == p)
            && (CanBuy(p, id, buyer) ==>
                  var l := p.listings[id];
                  && Balance(q.rows, buyer) == Balance(p.rows, buyer) - l.price
                  && Balance(q.rows, l.seller) == Balance(p.rows, l.seller) + l.price
                  && (forall c :: c != buyer && c != l.seller ==> Balance(q.rows, c) == Balance(p.rows, c)))
  {
    hide LedgerOk, Received, SalesBooked, UsageBooked, PurchasesBooked, Balance, Buy, Bought;
    BuyFacts(p, id, buyer);
    if CanBuy(p, id, buyer) {
      var q, l := Step(p, Buying(id, buyer)), p.listings[id];
      SumAfterMove(p, q, cs, buyer, l.seller, l.price);
      forall c
        ensures Balance(q.rows, c) == Moved(FiguresOf(p, c), c, buyer, l.seller, l.price).balance
      {
        assert FiguresOf(q, c) == Moved(FiguresOf(p, c), c, buyer, l.seller, l.price);
      }
    }
  }

  // ---------------------------------------------------- whole runs: the allowance

  predicate WithinAllowance(p: Platform, c: CompanyId) {
    0 <= FiguresOf(p, c).received && FiguresOf(p, c).balance <= Allowance(p, c) + FiguresOf(p, c).received
  }

  ghost predicate AllowanceOk(p: Platform) {
    forall c :: WithinAllowance(p, c)
  }

  lemma OtherCompanies(p: Platform, q: Platform, c: CompanyId)
    requires AllowanceOk(p) && OnlyCompany(p, q, c) && WithinAllowance(q, c)
    ensures AllowanceOk(q)
  {
    forall d
      ensures WithinAllowance(q, d)
    {
      assert WithinAllowance(p, d);
    }
  }

  lemma GetOrCreateKeepsAllowance(p: Platform, c: CompanyId)
    requires LedgerOk(p) && AllowanceOk(p)
    ensures GetOrCreate(p, c).Ok? && AllowanceOk(GetOrCreate(p, c).value)
  {
    hide LedgerOk, GetOrCreate, Received, SalesBooked, UsageBooked, PurchasesBooked;
    GetOrCreateFacts(p, c);
    assert WithinAllowance(p, c);
    OtherCompanies(p, GetOrCreate(p, c).value, c);
  }

  lemma ChangePlanKeepsAllowance(p: Platform, c: CompanyId, name: string)
    requires LedgerOk(p) && AllowanceOk(p)
    ensures var q := Step(p, ChangingPlan(c, name)); LedgerOk(q) && AllowanceOk(q)
  {
    hide LedgerOk, GetOrCreate, SwitchPlan, Received, SalesBooked, UsageBooked, PurchasesBooked, AllowanceOk;
    if PlanNamed(name).Some? {
      var plan := PlanNamed(name).value;
      GetOrCreateFacts(p, c);
      GetOrCreateKeepsAllowance(p, c);
      SwitchPlanKeepsAllowance(GetOrCreate(p, c).value, c, plan);
    }
  }

  lemma SwitchPlanKeepsAllowance(p: Platform, c: CompanyId, plan: Plan)
    requires LedgerOk(p) && AllowanceOk(p) && c in p.plans
    ensures SwitchPlan(p, c, plan).Ok?
    ensures var q := SwitchPlan(p, c, plan).value; LedgerOk(q) && AllowanceOk(q)
  {
    hide LedgerOk, SwitchPlan, Received, SalesBooked, UsageBooked, PurchasesBooked;
    SwitchPlanFacts(p, c, plan);
    BalanceNotNegative(p, c);
    assert WithinAllowance(p, c);
    OtherCompanies(p, SwitchPlan(p, c, plan).value, c);
  }

  lemma BooksKeepAllowance(p: Platform, op: Op)
    requires LedgerOk(p) && AllowanceOk(p)
    requires op.amount >= 0 && op.reason in (if op.Deduct? then {Usage} else {ManualGrant})
    ensures Mutate(p, op).Ok? ==> LedgerOk(Mutate(p, op).value) && AllowanceOk(Mutate(p, op).value)
  {
    hide LedgerOk, Mutate, FiguresOf, Rejects;
    MutateBooks(p, op);
    if Mutate(p, op).Ok? {
      forall d
        ensures WithinAllowance(Mutate(p, op).value, d)
      {
        assert WithinAllowance(p, d);
      }
    }
  }

  lemma ResetKeepsAllowance(p: Platform, cs: seq<CompanyId>)
    requires LedgerOk(p) && AllowanceOk(p)
    ensures AllowanceOk(ResetAll(p, cs))
  {
    hide LedgerOk, ResetAll, Received, SalesBooked, UsageBooked, PurchasesBooked;
    forall c
      ensures WithinAllowance(ResetAll(p, cs), c)
    {
      ResetAllFacts(p, cs, c);
      assert WithinAllowance(p, c);
    }
  }

  lemma UseCreditsKeepsAllowance(p: Platform, c: CompanyId, op: Operation)
    requires LedgerOk(p) && AllowanceOk(p)
    ensures var q := Step(p, Using(c, op)); LedgerOk(q) && AllowanceOk(q)
  {
    hide LedgerOk, AllowanceOk, GetOrCreate, Mutate;
    GetOrCreateFacts(p, c);
    GetOrCreateKeepsAllowance(p, c);
    BooksKeepAllowance(GetOrCreate(p, c).value, Deduct(c, Cost(op), Usage));
  }

  lemma GrantKeepsAllowance(p: Platform, c: CompanyId, amount: int)
    requires LedgerOk(p) && AllowanceOk(p)
    ensures var q := Step(p, Granting(c, amount)); LedgerOk(q) && AllowanceOk(q)
  {
    hide LedgerOk, AllowanceOk, GetOrCreate, Mutate;
    if amount > 0 {
      BooksKeepAllowance(p, Grant(c, amount, ManualGrant));
      if Mutate(p, Grant(c, amount, ManualGrant)).Ok? {
        var q := Mutate(p, Grant(c, amount, ManualGrant)).value;
        GetOrCreateFacts(q, c);
        GetOrCreateKeepsAllowance(q, c);
      }
    }
  }

  lemma BuyKeepsAllowance(p: Platform, id: ListingId, buyer: CompanyId)
    requires LedgerOk(p) && AllowanceOk(p)
    ensures var q := Step(p, Buying(id, buyer)); LedgerOk(q) && AllowanceOk(q)
  {
    hide LedgerOk, Buy, FiguresOf;
    BuyFacts(p, id, buyer);
    if Buy(p, id, buyer).Ok? {
      forall c
        ensures WithinAllowance(Buy(p, id, buyer).value, c)
      {
        assert WithinAllowance(p, c);
      }
    }
  }

  lemma SameLedgerKeepsAllowance(p: Platform, q: Platform)
    requires LedgerOk(p) && AllowanceOk(p) && q.rows == p.rows && q.clock == p.clock && q.plans == p.plans
    ensures LedgerOk(q) && AllowanceOk(q)
  {
    hide LedgerOk, FiguresOf;
    SameLedger(p, q);
    forall c
      ensures WithinAllowance(q, c)
    {
      assert WithinAllowance(p, c);
    }
  }

  lemma StepKeepsAllowance(p: Platform, r: Request)
    requires LedgerOk(p) && AllowanceOk(p)
    ensures LedgerOk(Step(p, r)) && AllowanceOk(Step(p, r))
  {
    hide LedgerOk, AllowanceOk, GetOrCreate, ChangePlan, UseCredits, GrantManually, Buy, ResetAll;
    match r
    case Subscribing(c) =>
      GetOrCreateFacts(p, c);
      GetOrCreateKeepsAllowance(p, c);
    case ChangingPlan(c, name) => ChangePlanKeepsAllowance(p, c, name);
    case Using(c, op) => UseCreditsKeepsAllowance(p, c, op);
    case Granting(c, amount) => GrantKeepsAllowance(p, c, amount);
    case Offering(id, c, price) => SameLedgerKeepsAllowance(p, Step(p, r));
    case Withdrawing(id, c) => SameLedgerKeepsAllowance(p, Step(p, r));
    case Buying(id, c) => BuyKeepsAllowance(p, id, c);
    case Resetting(cs) =>
      ResetAllFacts(p, cs, 0);
      ResetKeepsAllowance(p, cs);
  }

  /**
   In every run: a company's balance is the sum of its ledger amounts, is not negative,
   and never exceeds the allowance of its present plan plus the credits it received by
   manual grants and sales.
   */
  lemma {:induction false} BalanceWithinAllowance(run: Run<Request>, c: CompanyId)
    ensures var p := After(run);
            && 0 <= Balance(p.rows, c) == Total(RowsOf(p.rows, c))
            && Balance(p.rows, c) <= Allowance(p, c) + Received(p, c)
  {
    RunKeepsAllowance(run);
    var p := After(run);
    assert CompanyOk(p, c) && WithinAllowance(p, c);
    BalanceIsTotal(p.rows, c);
  }

  lemma {:induction false} RunKeepsAllowance(run: Run<Request>)
    ensures LedgerOk(After(run)) && AllowanceOk(After(run))
  {
    match run
    case Start =>
      forall c
        ensures CompanyOk(NEW_PLATFORM, c) && WithinAllowance(NEW_PLATFORM, c)
      {
      }
    case Then(before, r) =>
      hide LedgerOk, AllowanceOk, Step;
      RunKeepsAllowance(before);
      StepKeepsAllowance(After(before), r);
  }

  // ---------------------------------------------------- whole runs: the marketplace

  lemma {:induction false} RevenueOfSameSellers(
    ps: seq<Purchase>, a: map<ListingId, Listing>, b: map<ListingId, Listing>, c: CompanyId)
    requires forall i :: 0 <= i < |ps| ==>
               ps[i].listing in a && ps[i].listing in b && a[ps[i].listing].seller == b[ps[i].listing].seller
    ensures Revenue(ps, a, c) == Revenue(ps, b, c)
  {
    if ps != [] {
      RevenueOfSameSellers(ps[..|ps| - 1], a, b, c);
    }
  }

  lemma RevenueAppend(ps: seq<Purchase>, x: Purchase, listings: map<ListingId, Listing>, c: CompanyId)
    requires x.listing in listings
    ensures Revenue(ps + [x], listings, c)
         == Revenue(ps, listings, c) + if listings[x.listing].seller == c then x.price else 0
  {
    assert (ps + [x])[..|ps|] == ps;
  }

  /** Ledger mutations that are not sales leave the marketplace as it was. */
  lemma MarketUnchanged(p: Platform, q: Platform)
    requires MarketOk(p) && q.purchases == p.purchases && q.listings == p.listings
    requires forall c :: FiguresOf(q, c).sales == FiguresOf(p, c).sales
    ensures MarketOk(q)
  {
    forall i | 0 <= i < |q.purchases|
      ensures FairPurchase(q, q.purchases[i])
    {
      assert FairPurchase(p, p.purchases[i]);
    }
    forall c
      ensures Revenue(q.purchases, q.listings, c) == SalesBooked(q, c)
    {
      assert FiguresOf(q, c).sales == FiguresOf(p, c).sales;
      assert Revenue(p.purchases, p.listings, c) == SalesBooked(p, c);
    }
  }

  lemma BuyKeepsMarket(p: Platform, id: ListingId, buyer: CompanyId)
    requires LedgerOk(p) && MarketOk(p)
    ensures MarketOk(Step(p, Buying(id, buyer)))
  {
    hide LedgerOk, Buy, Received, SalesBooked, UsageBooked, PurchasesBooked, Balance;
    BuyFacts(p, id, buyer);
    if Buy(p, id, buyer).Ok? {
      var q, l := Buy(p, id, buyer).value, p.listings[id];
      var x := Purchase(id, buyer, l.price);
      forall i | 0 <= i < |q.purchases|
        ensures FairPurchase(q, q.purchases[i])
      {
        assert i < |p.purchases| ==> FairPurchase(p, p.purchases[i]);
      }
      forall c
        ensures Revenue(q.purchases, q.listings, c) == SalesBooked(q, c)
      {
        RevenueAppend(p.purchases, x, p.listings, c);
        assert FiguresOf(q, c) == Moved(FiguresOf(p, c), c, buyer, l.seller, l.price);
        assert Revenue(p.purchases, p.listings, c) == SalesBooked(p, c);
      }
    }
  }

  lemma ListingsKeepMarket(p: Platform, q: Platform)
    requires MarketOk(p) && q.rows == p.rows && q.purchases == p.purchases
    requires forall id :: id in p.listings ==>
               id in q.listings && q.listings[id].seller == p.listings[id].seller
               && q.listings[id].price == p.listings[id].price
    ensures MarketOk(q)
  {
    forall i | 0 <= i < |q.purchases|
      ensures FairPurchase(q, q.purchases[i])
    {
      assert FairPurchase(p, p.purchases[i]);
    }
    forall c
      ensures Revenue(q.purchases, q.listings, c) == SalesBooked(q, c)
    {
      RevenueOfSameSellers(p.purchases, p.listings, q.listings, c);
      assert Revenue(p.purchases, p.listings, c) == SalesBooked(p, c);
    }
  }

  lemma PlansKeepMarket(p: Platform, c: CompanyId, name: string)
    requires LedgerOk(p) && MarketOk(p)
    ensures GetOrCreate(p, c).Ok? && MarketOk(GetOrCreate(p, c).value)
    ensures MarketOk(Step(p, ChangingPlan(c, name)))
  {
    hide LedgerOk, GetOrCreate, SwitchPlan, Received, SalesBooked, UsageBooked, PurchasesBooked, MarketOk;
    GetOrCreateFacts(p, c);
    var q := GetOrCreate(p, c).value;
    MarketUnchanged(p, q);
    if PlanNamed(name).Some? {
      SwitchPlanFacts(q, c, PlanNamed(name).value);
      MarketUnchanged(q, SwitchPlan(q, c, PlanNamed(name).value).value);
    }
  }

  lemma UsageKeepsMarket(p: Platform, c: CompanyId, op: Operation)
    requires LedgerOk(p) && MarketOk(p)
    ensures MarketOk(Step(p, Using(c, op)))
  {
    hide LedgerOk, GetOrCreate, Mutate, FiguresOf, MarketOk, Rejects;
    GetOrCreateFacts(p, c);
    var q := GetOrCreate(p, c).value;
    PlansKeepMarket(p, c, "");
    MutateBooks(q, Deduct(c, Cost(op), Usage));
    if Mutate(q, Deduct(c, Cost(op), Usage)).Ok? {
      MarketUnchanged(q, Mutate(q, Deduct(c, Cost(op), Usage)).value);
    }
  }

  lemma GrantKeepsMarket(p: Platform, c: CompanyId, amount: int)
    requires LedgerOk(p) && MarketOk(p)
    ensures MarketOk(Step(p, Granting(c, amount)))
  {
    hide LedgerOk, GetOrCreate, Mutate, FiguresOf, MarketOk, Rejects;
    MutateBooks(p, Grant(c, amount, ManualGrant));
    if Mutate(p, Grant(c, amount, ManualGrant)).Ok? {
      var q := Mutate(p, Grant(c, amount, ManualGrant)).value;
      MarketUnchanged(p, q);
      PlansKeepMarket(q, c, "");
    }
  }

  lemma ResetKeepsMarket(p: Platform, cs: seq<CompanyId>)
    requires LedgerOk(p) && MarketOk(p)
    ensures MarketOk(ResetAll(p, cs))
  {
    hide LedgerOk, ResetAll, Received, SalesBooked, UsageBooked, PurchasesBooked, MarketOk;
    forall c
      ensures FiguresOf(ResetAll(p, cs), c).sales == FiguresOf(p, c).sales
    {
      ResetAllFacts(p, cs, c);
    }
    ResetAllFacts(p, cs, 0);
    MarketUnchanged(p, ResetAll(p, cs));
  }

  lemma StepKeepsMarket(p: Platform, r: Request)
    requires LedgerOk(p) && MarketOk(p)
    ensures MarketOk(Step(p, r))
  {
    hide LedgerOk, MarketOk, GetOrCreate, ChangePlan, UseCredits, GrantManually, Buy, ResetAll;
    match r
    case Subscribing(c) => PlansKeepMarket(p, c, "");
    case ChangingPlan(c, name) => PlansKeepMarket(p, c, name);
    case Using(c, op) => UsageKeepsMarket(p, c, op);
    case Granting(c, amount) => GrantKeepsMarket(p, c, amount);
    case Offering(id, c, price) => ListingsKeepMarket(p, Step(p, r));
    case Withdrawing(id, c) => ListingsKeepMarket(p, Step(p, r));
    case Buying(id, c) => BuyKeepsMarket(p, id, c);
    case Resetting(cs) => ResetKeepsMarket(p, cs);
  }

  /**
   In every run: no company has bought a listing twice or bought its own, every purchase
   has its listing's price, and a seller's revenue is the sum of its booked sales.
   */
  lemma {:induction false} MarketInvariant(run: Run<Request>)
    ensures MarketOk(After(run))
  {
    match run
    case Start =>
    case Then(before, r) =>
      hide LedgerOk, MarketOk, Step;
      MarketInvariant(before);
      RunKeepsAllowance(before);
      StepKeepsMarket(After(before), r);
  }

  // ---------------------------------------------------- the service

  /** The outcome of a request on the service: what it leaves behind when it raises and when it does not. */
  ghost predicate Leaves(was: Platform, outcome: Result<Platform>, ok: bool, now: Platform) {
    (ok <==> outcome.Ok?) && now == if outcome.Ok? then outcome.value else was
  }

  class BillingService {
    var rows: seq<Row>
    var clock: int
    var plans: map<CompanyId, Plan>
    var listings: map<ListingId, Listing>
    var purchases: seq<Purchase>

    function State(): Platform
      reads this
    {
      Platform(rows, clock, plans, listings, purchases)
    }

    constructor ()
      ensures State() == NEW_PLATFORM
    {
      rows, clock, plans, listings, purchases := [], 0, map[], map[], [];
    }

    /** Undo everything a request has done. */
    method Rollback(to: Platform)
      modifies this
      ensures State() == to
    {
      rows, clock, plans, listings, purchases := to.rows, to.clock, to.plans, to.listings, to.purchases;
    }

    method GrantCredits(c: CompanyId, amount: int, reason: Reason) returns (ok: bool)
      modifies this
      ensures Leaves(old(State()), Mutate(old(State()), Grant(c, amount, reason)), ok, State())
    {
      var current := Balance(rows, c);
      ok := AddRow(Row(c, amount, reason, current + amount, clock));
    }

    method DeductCredits(c: CompanyId, amount: int, reason: Reason) returns (ok: bool)
      modifies this
      ensures Leaves(old(State()), Mutate(old(State()), Deduct(c, amount, reason)), ok, State())
    {
      var current := Balance(rows, c);
      if current < amount {
        return false;
      }
      ok := AddRow(Row(c, -amount, reason, current - amount, clock));
    }

    /** Insert a ledger row; the table's constraint refuses a negative balance. */
    method AddRow(r: Row) returns (ok: bool)
      modifies this
      ensures ok <==> r.balanceAfter >= 0 && ClockAdvanced(old(rows), r.company, old(clock))
      ensures State() == if ok then old(State()).(rows := old(rows) + [r], clock := old(clock) + 1) else old(State())
    {
      ok := r.balanceAfter >= 0 && ClockAdvanced(rows, r.company, clock);
      if ok {
        rows, clock := rows + [r], clock + 1;
      }
    }

    method GetOrCreateSubscription(c: CompanyId) returns (ok: bool)
      modifies this
      ensures Leaves(old(State()), GetOrCreate(old(State()), c), ok, State())
    {
      if c in plans {
        return true;
      }
      var before := State();
      plans := plans[c := Free];
      ok := GrantCredits(c, Monthly(Free), SubscriptionGrant);
      if !ok {
        Rollback(before);
      }
    }

    method ChangePlanTo(c: CompanyId, name: string) returns (ok: bool)
      modifies this
      ensures Leaves(old(State()), ChangePlan(old(State()), c, name), ok, State())
    {
      hide SwitchPlan, GetOrCreate;
      var plan := PlanNamed(name);
      if plan.None? {
        return false;
      }
      var before := State();
      ok := GetOrCreateSubscription(c);
      if !ok || c !in plans {
        Rollback(before);
        return false;
      }
      ok := SwitchTo(c, plan.value);
      if !ok {
        Rollback(before);
      }
    }

    method SwitchTo(c: CompanyId, plan: Plan) returns (ok: bool)
      requires c in plans
      modifies this
      ensures ok <==> SwitchPlan(old(State()), c, plan).Ok?
      ensures ok ==> State() == SwitchPlan(old(State()), c, plan).value
    {
      var was, will := Monthly(plans[c]), Monthly(plan);
      ok := true;
      plans := plans[c := plan];
      if will > was {
        ok := GrantCredits(c, will - was, PlanUpgrade);
      } else if will < was {
        var current := Balance(rows, c);
        if current > will {
          ok := DeductCredits(c, current - will, DowngradeAdjustment);
        }
      }
    }

    method CheckCreditAndDeduct(c: CompanyId, op: Operation) returns (ok: bool)
      modifies this
      ensures Leaves(old(State()), UseCredits(old(State()), c, op), ok, State())
    {
      var before := State();
      ok := GetOrCreateSubscription(c);
      if ok && Cost(op) > 0 {
        ok := DeductCredits(c, Cost(op), Usage);
      }
      if !ok {
        Rollback(before);
      }
    }

    method AdminGrantCredits(c: CompanyId, amount: int) returns (ok: bool)
      modifies this
      ensures Leaves(old(State()), GrantManually(old(State()), c, amount), ok, State())
    {
      if amount <= 0 {
        return false;
      }
      var before := State();
      ok := GrantCredits(c, amount, ManualGrant);
      if ok {
        ok := GetOrCreateSubscription(c);
      }
      if !ok {
        Rollback(before);
      }
    }

    method CreateListing(id: ListingId, seller: CompanyId, price: nat) returns (ok: bool)
      modifies this
      ensures Leaves(old(State()), ListReport(old(State()), id, seller, price), ok, State())
    {
      ok := id !in listings;
      if ok {
        listings := listings[id := Listing(seller, price, true)];
      }
    }

    method WithdrawListing(id: ListingId, c: CompanyId) returns (ok: bool)
      modifies this
      ensures Leaves(old(State()), Withdraw(old(State()), id, c), ok, State())
    {
      ok := id in listings && listings[id].active && listings[id].seller == c;
      if ok {
        listings := listings[id := listings[id].(active := false)];
      }
    }

    method PurchaseListing(id: ListingId, buyer: CompanyId) returns (ok: bool)
      modifies this
      ensures Leaves(old(State()), Buy(old(State()), id, buyer), ok, State())
    {
      if id !in listings || !listings[id].active {
        return false;
      }
      var listing := listings[id];
      if listing.seller == buyer || Bought(purchases, id, buyer) {
        return false;
      }
      var before := State();
      purchases := purchases + [Purchase(id, buyer, listing.price)];
      ok := true;
      if listing.price > 0 {
        ok := DeductCredits(buyer, listing.price, MarketplacePurchase);
        if ok {
          ok := GrantCredits(listing.seller, listing.price, MarketplaceSale);
        }
      }
      if !ok {
        Rollback(before);
      }
    }

    method ResetCompany(c: CompanyId)
      modifies this
      ensures State() == ResetOne(old(State()), c)
    {
      var before := State();
      var ok := GetOrCreateSubscription(c);
      if ok {
        var monthly := if c in plans then Monthly(plans[c]) else Monthly(Free);
        var current := Balance(rows, c);
        var topUp := Max(0, monthly - current);
        if topUp > 0 {
          ok := GrantCredits(c, topUp, MonthlyReset);
        }
      }
      if !ok {
        Rollback(before);
      }
    }

    /** The monthly reset, which reads the companies in batches and visits each one once. */
    method ResetMonthly(companies: seq<CompanyId>)
      modifies this
      ensures State() == ResetAll(old(State()), companies)
    {
      hide ResetOne;
      var offset := 0;
      while true
        invariant 0 <= offset
        invariant State() == ResetAll(old(State()), companies[..Min(offset, |companies|)])
        decreases |companies| - offset
      {
        var batch := companies[Min(offset, |companies|)..Min(offset + BATCH, |companies|)];
        if batch == [] {
          break;
        }
        for i := 0 to |batch|
          invariant State() == ResetAll(old(State()), companies[..offset + i])
        {
          ghost var visited := companies[..offset + i + 1];
          assert visited[..|visited| - 1] == companies[..offset + i];
          ResetCompany(batch[i]);
        }
        offset := offset + BATCH;
      }
      assert companies[..Min(offset, |companies|)] == companies;
    }
  }

  const BATCH := 100
}
