/**
 What the requests of a run did, told from the requests themselves: what is charged and
 granted, what is for sale, and how both add up in the ledger
 (api/services/subscriptions.py and marketplace.py).
 */
module BillingHistory {
  import opened Billing
  import opened CreditLedger
  import opened Outcomes
  import opened Runs

  // ---------------------------------------------------------------- single requests

  /** The price list. */
  predicate Price(op: Operation, credits: nat) {
    match op
    case Estimate => credits == 10
    case PdfExport => credits == 5
    case QuestionnaireExtract => credits == 5
    case ScenarioCompute => credits == 3
    case Uncharged => credits == 0
  }

  /** What a company can spend: a first request opens a free plan with a hundred credits. */
  function Available(p: Platform, c: CompanyId): int {
    Balance(p.rows, c) + if c in p.plans then 0 else 100
  }

  /** The company has a plan, a free one if it had none, and every other company the one it had. */
  predicate OpenedFor(p: Platform, q: Platform, c: CompanyId) {
    q.plans == if c in p.plans then p.plans else p.plans[c := Free]
  }

  /**
   Usage is charged: an operation is served if and only if its price is available, and then
   exactly that is taken and booked as usage; otherwise nothing at all changes.
   */
  lemma UsageIsCharged(p: Platform, c: CompanyId, op: Operation, price: nat)
    requires LedgerOk(p) && Price(op, price)
    ensures Serve(p, Using(c, op)).Ok? <==> price <= Available(p, c)
    ensures price <= Available(p, c) ==>
              var q, was := Serve(p, Using(c, op)).value, FiguresOf(p, c);
              && OnlyCompany(p, q, c) && OpenedFor(p, q, c)
              && FiguresOf(q, c) == was.(balance := Available(p, c) - price, used := was.used - price)
    ensures price > Available(p, c) ==> Step(p, Using(c, op)) == p
  {
    hide Mutate, LedgerOk, Received, SalesBooked, UsageBooked, PurchasesBooked, GetOrCreate, Balance;
    GetOrCreateFacts(p, c);
    var q := GetOrCreate(p, c).value;
    assert FiguresOf(q, c).balance == Balance(q.rows, c) == Available(p, c);
    BalanceNotNegative(q, c);
    MutateBooks(q, Deduct(c, Cost(op), Usage));
  }

  /** What costs nothing leaves a subscribed company's ledger as it is. */
  lemma FreeUseIsNotBooked(p: Platform, c: CompanyId, op: Operation)
    requires Price(op, 0) && c in p.plans
    ensures Serve(p, Using(c, op)) == Ok(p)
  {
  }

  /** A manual grant goes through exactly for a positive amount, and is booked as received. */
  lemma GrantIsBooked(p: Platform, c: CompanyId, amount: int)
    requires LedgerOk(p)
    ensures Serve(p, Granting(c, amount)).Ok? <==> amount > 0
    ensures amount > 0 ==>
              var q, was := Serve(p, Granting(c, amount)).value, FiguresOf(p, c);
              && OnlyCompany(p, q, c) && OpenedFor(p, q, c)
              && FiguresOf(q, c) == was.(balance := Available(p, c) + amount, received := was.received + amount)
  {
    hide Mutate, LedgerOk, Received, SalesBooked, UsageBooked, PurchasesBooked, GetOrCreate, Balance;
    if amount > 0 {
      BalanceNotNegative(p, c);
      MutateBooks(p, Grant(c, amount, ManualGrant));
      var q := Mutate(p, Grant(c, amount, ManualGrant)).value;
      assert FiguresOf(q, c).balance == Balance(q.rows, c) && FiguresOf(p, c).balance == Balance(p.rows, c);
      GetOrCreateFacts(q, c);
    }
  }

  /** The allowance that goes with a plan's name. */
  predicate PlanLimit(name: string, credits: nat) {
    (name == "free" && credits == 100) || (name == "pro" && credits == 1000)
    || (name == "enterprise" && credits == 10000)
  }

  /**
   Changing to a named plan adds the difference to a smaller allowance, and caps the balance
   at less than a larger one.
   */
  lemma PlanIsChanged(p: Platform, c: CompanyId, name: string, limit: nat)
    requires LedgerOk(p) && PlanLimit(name, limit)
    ensures Serve(p, ChangingPlan(c, name)).Ok?
    ensures var q, was, had := Serve(p, ChangingPlan(c, name)).value, if c in p.plans then Allowance(p, c) else 100,
                               Available(p, c);
            && OnlyCompany(p, q, c) && c in q.plans && Allowance(q, c) == limit
            && FiguresOf(q, c) == FiguresOf(p, c).(balance :=
                 if limit > was then had + (limit - was) else if limit < was && had > limit then limit else had)
  {
    hide Mutate, LedgerOk, Received, SalesBooked, UsageBooked, PurchasesBooked, GetOrCreate, SwitchPlan, Balance;
    GetOrCreateFacts(p, c);
    var q := GetOrCreate(p, c).value;
    assert FiguresOf(q, c).balance == Balance(q.rows, c) == Available(p, c);
    SwitchPlanFacts(q, c, PlanNamed(name).value);
  }

  /** Any other name is refused. */
  lemma UnknownPlanIsRefused(p: Platform, c: CompanyId, name: string)
    requires name !in {"free", "pro", "enterprise"}
    ensures Step(p, ChangingPlan(c, name)) == p && Serve(p, ChangingPlan(c, name)).Err?
  {
  }

  // ---------------------------------------------------------------- what is for sale

  /** The first offer of a listing in a run. */
  datatype Offer = Offer(seller: CompanyId, price: nat)

  function OfferOf(run: Run<Request>, id: ListingId): Option<Offer> {
    match run
    case Start => None
    case Then(before, r) =>
      if OfferOf(before, id).None? && r.Offering? && r.id == id then Some(Offer(r.seller, r.price))
      else OfferOf(before, id)
  }

  /** Whether the seller has withdrawn a listing since it was offered. */
  predicate Withdrawn(run: Run<Request>, id: ListingId) {
    run.Then? && (Withdrawn(run.before, id)
                  || (run.last.Withdrawing? && run.last.id == id
                      && OfferOf(run.before, id).Some? && OfferOf(run.before, id).value.seller == run.last.company))
  }

  lemma OnlyListingRequests(p: Platform, r: Request)
    requires LedgerOk(p) && !r.Offering? && !r.Withdrawing?
    ensures Step(p, r).listings == p.listings
  {
    hide LedgerOk, GetOrCreate, ChangePlan, UseCredits, GrantManually, Buy, ResetAll, FiguresOf, Mutate;
    match r
    case Subscribing(c) => GetOrCreateFacts(p, c);
    case ChangingPlan(c, name) => ChangePlanKeepsListings(p, c, name);
    case Using(c, op) => UsageKeepsListings(p, c, op);
    case Granting(c, amount) => GrantKeepsListings(p, c, amount);
    case Buying(id, c) => BuyFacts(p, id, c);
    case Resetting(cs) => ResetAllFacts(p, cs, 0);
  }

  lemma ChangePlanKeepsListings(p: Platform, c: CompanyId, name: string)
    requires LedgerOk(p)
    ensures Step(p, ChangingPlan(c, name)).listings == p.listings
  {
    hide LedgerOk, GetOrCreate, SwitchPlan, FiguresOf;
    if PlanNamed(name).Some? {
      GetOrCreateFacts(p, c);
      SwitchPlanFacts(GetOrCreate(p, c).value, c, PlanNamed(name).value);
    }
  }

  lemma UsageKeepsListings(p: Platform, c: CompanyId, op: Operation)
    requires LedgerOk(p)
    ensures Step(p, Using(c, op)).listings == p.listings
  {
    UsageIsCharged(p, c, op, Cost(op));
    hide LedgerOk, UseCredits, FiguresOf, Available;
  }

  lemma GrantKeepsListings(p: Platform, c: CompanyId, amount: int)
    requires LedgerOk(p)
    ensures Step(p, Granting(c, amount)).listings == p.listings
  {
    GrantIsBooked(p, c, amount);
    hide LedgerOk, GrantManually, FiguresOf;
  }

  /** In every run a listing is what was first offered under its id, and is for sale until its seller withdraws it. */
  lemma {:induction false} ListingIsHistory(run: Run<Request>, id: ListingId)
    ensures var listings, offer := After(run).listings, OfferOf(run, id);
            && (id in listings <==> offer.Some?)
            && (offer.Some? ==> listings[id] == Listing(offer.value.seller, offer.value.price, !Withdrawn(run, id)))
    ensures Withdrawn(run, id) ==> OfferOf(run, id).Some?
  {
    match run
    case Start =>
    case Then(before, r) =>
      ListingIsHistory(before, id);
      RunKeepsAllowance(before);
      hide LedgerOk, AllowanceOk;
      if !r.Offering? && !r.Withdrawing? {
        OnlyListingRequests(After(before), r);
        hide Step;
      }
  }

  /** `run` continues `base`. */
  predicate Continues(run: Run<Request>, base: Run<Request>) {
    run == base || (run.Then? && Continues(run.before, base))
  }

  lemma {:induction false} WithdrawnForGood(run: Run<Request>, base: Run<Request>, id: ListingId)
    requires Continues(run, base) && Withdrawn(base, id)
    ensures Withdrawn(run, id)
  {
    if run != base {
      WithdrawnForGood(run.before, base, id);
    }
  }

  /** Once its seller has withdrawn a listing, no continuation of the run sells it to anyone. */
  lemma WithdrawnIsNeverSold(before: Run<Request>, id: ListingId, run: Run<Request>, buyer: CompanyId)
    requires OfferOf(before, id).Some?
    requires Continues(run, Then(before, Withdrawing(id, OfferOf(before, id).value.seller)))
    ensures Serve(After(run), Buying(id, buyer)).Err?
  {
    var base := Then(before, Withdrawing(id, OfferOf(before, id).value.seller));
    assert Withdrawn(base, id);
    WithdrawnForGood(run, base, id);
    ListingIsHistory(run, id);
  }

  // ---------------------------------------------------------------- statements of account

  function PriceOf(op: Operation): (credits: nat)
    ensures Price(op, credits)
  {
    Cost(op)
  }

  /** The prices of a company's operations that were served. */
  function Charged(run: Run<Request>, c: CompanyId): nat {
    match run
    case Start => 0
    case Then(before, r) =>
      Charged(before, c)
      + if r.Using? && r.company == c && Serve(After(before), r).Ok? then PriceOf(r.operation) else 0
  }

  /** The amounts of a company's manual grants. */
  function Granted(run: Run<Request>, c: CompanyId): nat {
    match run
    case Start => 0
    case Then(before, r) => Granted(before, c) + if r.Granting? && r.company == c && r.amount > 0 then r.amount else 0
  }

  /** The purchases of a run, at the prices offered; `seller` says whether the company sold or bought. */
  function Traded(run: Run<Request>, c: CompanyId, seller: bool): nat {
    match run
    case Start => 0
    case Then(before, r) =>
      Traded(before, c, seller)
      + if r.Buying? && Serve(After(before), r).Ok? && OfferOf(before, r.id).Some?
           && c == (if seller then OfferOf(before, r.id).value.seller else r.buyer)
        then OfferOf(before, r.id).value.price else 0
  }

  /** What one request adds to a company's figures other than its balance. */
  lemma RequestIsBooked(before: Run<Request>, r: Request, c: CompanyId)
    requires LedgerOk(After(before))
    ensures var (p, run) := (After(before), Then(before, r));
            var was, is' := FiguresOf(p, c), FiguresOf(After(run), c);
            && is'.used - was.used == Charged(before, c) - Charged(run, c)
            && is'.received - was.received == Granted(run, c) - Granted(before, c) + (is'.sales - was.sales)
            && is'.sales - was.sales == Traded(run, c, true) - Traded(before, c, true)
            && is'.spent - was.spent == Traded(before, c, false) - Traded(run, c, false)
  {
    var p := After(before);
    hide LedgerOk, GetOrCreate, ChangePlan, UseCredits, GrantManually, Buy, ResetAll, FiguresOf, Mutate, Available;
    match r
    case Subscribing(d) => GetOrCreateFacts(p, d);
    case ChangingPlan(d, name) =>
      if PlanNamed(name).Some? {
        PlanIsChanged(p, d, name, Monthly(PlanNamed(name).value));
      } else {
        UnknownPlanIsRefused(p, d, name);
      }
    case Using(d, op) => UsageIsCharged(p, d, op, PriceOf(op));
    case Granting(d, amount) => GrantIsBooked(p, d, amount);
    case Offering(_, _, _) => SameLedger(p, After(Then(before, r)));
    case Withdrawing(_, _) => SameLedger(p, After(Then(before, r)));
    case Buying(id, buyer) =>
      ListingIsHistory(before, id);
      BuyFacts(p, id, buyer);
    case Resetting(cs) => ResetAllFacts(p, cs, c);
  }

  /**
   In every run the ledger says what was done: the usage booked for a company is minus the
   prices of its operations that were served, what it received are its manual grants and
   sales, and its sales and purchases are booked at the prices offered.
   */
  lemma {:induction false} StatementOfAccount(run: Run<Request>, c: CompanyId)
    ensures var p := After(run);
            && UsageBooked(p, c) == -(Charged(run, c) as int)
            && Received(p, c) == Granted(run, c) + SalesBooked(p, c)
            && SalesBooked(p, c) == Traded(run, c, true)
            && PurchasesBooked(p, c) == -(Traded(run, c, false) as int)
  {
    match run
    case Start =>
    case Then(before, r) =>
      StatementOfAccount(before, c);
      RunKeepsAllowance(before);
      hide LedgerOk, AllowanceOk, Step, Serve, Received, SalesBooked, UsageBooked, PurchasesBooked;
      hide Charged, Granted, Traded;
      RequestIsBooked(before, r, c);
  }
}
