/**
 Retrying webhook deliveries (api/services/webhooks.py): the first attempt, the job that
 retries what is due, and the administrator's manual retry.  Each attempt's outcome and
 jittered delay are inputs.
 */
module WebhookRetries {
  import opened Outcomes
  import opened Runs

  const DEFAULT_MAX_RETRIES := 3
  const LIMIT := 50

  /** Delays in milliseconds after the first, second and every later attempt. */
  const DELAYS := [1000, 5000, 30000]

  datatype Delivery = Delivery(retryCount: nat, maxRetries: nat, success: bool, nextRetryAt: Option<int>)

  datatype Response = Status(code: int) | NetworkError

  /** Random extra delay in hundredths of a percent: at most a tenth. */
  type Jitter = j: nat | j <= 1000

  /** One attempt: whether the webhook is there and active, the response, the clock after it, the jitter. */
  datatype Try = Try(active: bool, response: Response, doneAt: int, jitter: Jitter)

  predicate Succeeds(r: Response) {
    r.Status? && r.code < 400
  }

  function RetryDelay(attempt: nat, jitter: Jitter): (d: nat)
    ensures DELAYS[0] <= d <= DELAYS[2] + DELAYS[2] / 10
  {
    var base := DELAYS[if attempt < |DELAYS| then attempt else |DELAYS| - 1];
    base + base * jitter / 10000
  }

  /**
   A second before the second attempt, five before the third, thirty before every later one,
   and up to a tenth more.
   */
  lemma RetryDelayByAttempt(attempt: nat, jitter: Jitter, base: nat)
    requires base == if attempt == 0 then 1000 else if attempt == 1 then 5000 else 30000
    ensures base <= RetryDelay(attempt, jitter) <= base + base / 10
    ensures 10000 * (RetryDelay(attempt, jitter) - base) <= base * jitter
            < 10000 * (RetryDelay(attempt, jitter) - base + 1)
  {
  }

  function Scheduled(d: Delivery, t: Try): Delivery {
    d.(nextRetryAt := Some(t.doneAt + RetryDelay(d.retryCount, t.jitter)))
  }

  /** The two counters of a delivery that is not stored yet: the columns' default values are filled in on storing. */
  datatype Counters = Counters(retryCount: Option<nat>, maxRetries: Option<nat>)

  /** What creating a delivery leaves them at. */
  const UNSET := Counters(None, None)

  /** What the columns declare. */
  const DECLARED := Counters(Some(0), Some(DEFAULT_MAX_RETRIES))

  function Filled(c: Counters, success: bool): Delivery {
    Delivery(c.retryCount.UnwrapOr(0), c.maxRetries.UnwrapOr(DEFAULT_MAX_RETRIES), success, None)
  }

  /** Comparing a counter that is not set raises. */
  function Below(c: Counters): Result<bool> {
    if c.retryCount.Some? && c.maxRetries.Some? then Ok(c.retryCount.value < c.maxRetries.value) else Err
  }

  /** The first attempt at an event, for a delivery with these counters: the delivery it stores. */
  function Dispatched(c: Counters, t: Try): Result<Delivery> {
    if Succeeds(t.response) then Ok(Filled(c, true))
    else if Below(c).Err? then Err
    else if Below(c).value then Ok(Scheduled(Filled(c, false), t))
    else Ok(Filled(c, false))
  }

  predicate Due(d: Delivery, now: int) {
    !d.success && d.nextRetryAt.Some? && d.nextRetryAt.value <= now
  }

  /** The retry job's handling of one delivery that is due. */
  function Processed(d: Delivery, t: Try): Delivery {
    if !t.active then d.(nextRetryAt := None) else
      var e := d.(retryCount := d.retryCount + 1,
                  success := if t.response.Status? then Succeeds(t.response) else d.success);
      if e.success || e.retryCount >= e.maxRetries then e.(nextRetryAt := None) else Scheduled(e, t)
  }

  /** A manual retry: it schedules another retry whenever it fails, even past the limit. */
  function RetriedManually(d: Delivery, t: Try): Delivery {
    if !t.active then d else
      var e := d.(retryCount := d.retryCount + 1, success := Succeeds(t.response));
      if e.success then e.(nextRetryAt := None) else Scheduled(e, t)
  }

  // ---------------------------------------------------------------- whole runs

  /** What can happen to a delivery: a pass of the retry job, or a manual retry. */
  datatype Event = Pass(now: int, try: Try) | Manual(try: Try)

  function After(d: Delivery, run: Run<Event>): Delivery {
    match run
    case Start => d
    case Then(before, e) =>
      var s := After(d, before);
      match e
      case Pass(now, t) => if Due(s, now) then Processed(s, t) else s
      case Manual(t) => RetriedManually(s, t)
  }

  /** Attempts made by the retry job. */
  function Automatic(d: Delivery, run: Run<Event>): nat {
    match run
    case Start => 0
    case Then(before, e) =>
      Automatic(d, before) + if e.Pass? && Due(After(d, before), e.now) && e.try.active then 1 else 0
  }

  /** Attempts made by hand. */
  function ByHand(run: Run<Event>): nat {
    match run
    case Start => 0
    case Then(before, e) => ByHand(before) + if e.Manual? && e.try.active then 1 else 0
  }

  /** Attempts the retry job can still make without further help. */
  function Potential(d: Delivery): nat {
    if d.nextRetryAt.None? then 0
    else if d.retryCount < d.maxRetries then d.maxRetries - d.retryCount
    else 1
  }

  /**
   The most automatic attempts on a delivery with this many manual retries.  Each manual
   retry that fails makes room for one more, but on a delivery with nothing scheduled the
   first of them starts over with what is left of the limit.
   */
  function Bound(d: Delivery, manual: nat): nat {
    if manual == 0 then Potential(d)
    else if d.nextRetryAt.Some? then Potential(d) + manual
    else Potential(Restarted(d)) + manual - 1
  }

  /** After a manual retry that fails. */
  function Restarted(d: Delivery): Delivery {
    RetriedManually(d, FailingTry(0))
  }

  function FailingTry(at: int): Try {
    Try(true, NetworkError, at, 0)
  }

  lemma {:induction false} RunInvariant(d: Delivery, run: Run<Event>)
    ensures var s := After(d, run);
            && s.maxRetries == d.maxRetries
            && s.retryCount == d.retryCount + Automatic(d, run) + ByHand(run)
            && Automatic(d, run) + Potential(s) <= Bound(d, ByHand(run))
  {
    if run.Then? {
      RunInvariant(d, run.before);
    }
  }

  /**
   Whatever the outcomes: the automatic attempts on a delivery are within the bound for its
   manual retries, and once that many have been made nothing is scheduled any more.
   */
  lemma AttemptsAreBounded(d: Delivery, run: Run<Event>)
    ensures Automatic(d, run) <= Bound(d, ByHand(run))
    ensures Automatic(d, run) == Bound(d, ByHand(run)) ==> After(d, run).nextRetryAt == None
  {
    RunInvariant(d, run);
  }

  /** A pass that handles a delivery leaves a retry scheduled only after a failure that has not used up the limit. */
  lemma PassClearsFinishedDeliveries(d: Delivery, now: int, t: Try)
    requires Due(d, now)
    ensures Processed(d, t).nextRetryAt.Some? <==>
            t.active && (t.response.NetworkError? || t.response.code >= 400) && d.retryCount + 1 < d.maxRetries
    ensures Processed(d, t).nextRetryAt.Some? ==>
            Processed(d, t).nextRetryAt.value >= t.doneAt + DELAYS[0]
    ensures Potential(Processed(d, t)) < Potential(d)
  {
  }

  // ---------------------------------------------------- the bound is reached

  /** A pass that comes exactly when the delivery is due, and fails. */
  function FailingPass(d: Delivery): Event
    requires d.nextRetryAt.Some?
  {
    Pass(d.nextRetryAt.value, FailingTry(d.nextRetryAt.value))
  }

  /** Failing passes use up what is left. */
  lemma {:induction false} Exhaust(d: Delivery, base: Run<Event>, n: nat) returns (run: Run<Event>)
    requires var s := After(d, base); !s.success && s.nextRetryAt.Some? && n <= Potential(s)
    ensures Automatic(d, run) == Automatic(d, base) + n && ByHand(run) == ByHand(base)
    ensures var (s, q) := (After(d, base), After(d, run));
            && !q.success && q.maxRetries == s.maxRetries && q.retryCount == s.retryCount + n
            && (q.nextRetryAt.Some? <==> n < Potential(s))
  {
    if n == 0 {
      run := base;
    } else {
      var before := Exhaust(d, base, n - 1);
      run := Then(before, FailingPass(After(d, before)));
    }
  }

  /**
   For every delivery and every number of manual retries some run makes as many automatic
   attempts as the bound allows.
   */
  lemma {:induction false} BoundIsReached(d: Delivery, manual: nat) returns (run: Run<Event>)
    requires d.success ==> d.nextRetryAt.None?
    ensures ByHand(run) == manual && Automatic(d, run) == Bound(d, manual)
  {
    if manual == 0 {
      run := Start;
      if d.nextRetryAt.Some? {
        run := Exhaust(d, Start, Potential(d));
      }
    } else if manual == 1 && d.nextRetryAt.None? {
      var byHand := Then(Start, Manual(FailingTry(0)));
      assert After(d, byHand) == Restarted(d);
      run := Exhaust(d, byHand, Potential(Restarted(d)));
    } else {
      var before := BoundIsReached(d, manual - 1);
      var byHand := Then(before, Manual(FailingTry(0)));
      run := Then(byHand, FailingPass(After(d, byHand)));
    }
  }

  // ---------------------------------------------------- what dispatching starts

  /** A response below status 400. */
  predicate Delivered(r: Response) {
    r.Status? && r.code < 400
  }

  /** What dispatching stores: the outcome, the counters or their declared values, and a retry if there is one left. */
  lemma DispatchedFacts(c: Counters, t: Try)
    requires Dispatched(c, t).Ok?
    ensures var d := Dispatched(c, t).value;
            && (d.success <==> Delivered(t.response))
            && d.retryCount == (if c.retryCount.Some? then c.retryCount.value else 0)
            && d.maxRetries == (if c.maxRetries.Some? then c.maxRetries.value else 3)
            && (d.nextRetryAt.Some? <==> !d.success && d.retryCount < d.maxRetries)
            && (d.nextRetryAt.Some? ==> d.nextRetryAt.value == t.doneAt + RetryDelay(d.retryCount, t.jitter))
  {
  }

  /**
   A first attempt that fails raises, because it compares counters that are not set, and
   stores nothing; with the declared values it would schedule a retry.
   */
  lemma DispatchStoresIff(c: Counters, t: Try)
    ensures Dispatched(c, t).Ok? <==> Delivered(t.response) || (c.retryCount.Some? && c.maxRetries.Some?)
    ensures Dispatched(UNSET, t).Ok? <==> Delivered(t.response)
    ensures Dispatched(DECLARED, t).Ok?
    ensures Dispatched(DECLARED, t).value.nextRetryAt.Some? <==> !Delivered(t.response)
  {
    DispatchedFacts(DECLARED, t);
  }

  /**
   So the delivery that dispatching stores is never retried automatically, unless it is
   retried by hand first: with m > 0 manual retries the job makes at most m + 1 attempts.
   With the declared values it would have been the limit of three plus m.
   */
  lemma RetriedOnlyAfterManual(t: Try, manual: nat)
    requires Succeeds(t.response)
    ensures var d := Dispatched(UNSET, t).value;
            && Bound(d, manual) == (if manual == 0 then 0 else manual + 1)
            && ((exists run :: ByHand(run) == manual && Automatic(d, run) > 0) <==> manual > 0)
    ensures forall failing: Try :: !Succeeds(failing.response) ==>
              Bound(Dispatched(DECLARED, failing).value, manual) == DEFAULT_MAX_RETRIES + manual
  {
    var d := Dispatched(UNSET, t).value;
    var longest := BoundIsReached(d, manual);
    forall run | ByHand(run) == manual ensures Automatic(d, run) <= Bound(d, manual) {
      AttemptsAreBounded(d, run);
    }
    assert ByHand(longest) == manual;
  }

  // ---------------------------------------------------------------- the deliveries

  class WebhookDelivery {
    var retryCount: nat
    var maxRetries: nat
    var success: bool
    var nextRetryAt: Option<int>

    function State(): Delivery
      reads this
    {
      Delivery(retryCount, maxRetries, success, nextRetryAt)
    }

    constructor (d: Delivery)
      ensures State() == d
    {
      retryCount, maxRetries, success, nextRetryAt := d.retryCount, d.maxRetries, d.success, d.nextRetryAt;
    }

    method Process(t: Try) returns (attempted: bool)
      modifies this
      ensures State() == Processed(old(State()), t) && attempted == t.active
    {
      if !t.active {
        nextRetryAt := None;
        return false;
      }
      retryCount := retryCount + 1;
      if t.response.Status? {
        success := Succeeds(t.response);
      }
      if success {
        nextRetryAt := None;
      } else if retryCount >= maxRetries {
        nextRetryAt := None;
      } else {
        nextRetryAt := Some(t.doneAt + RetryDelay(retryCount, t.jitter));
      }
      return true;
    }

    method RetryByHand(t: Try) returns (found: bool)
      modifies this
      ensures State() == RetriedManually(old(State()), t) && found == t.active
    {
      if !t.active {
        return false;
      }
      retryCount := retryCount + 1;
      success := Succeeds(t.response);
      nextRetryAt := if success then None else Some(t.doneAt + RetryDelay(retryCount, t.jitter));
      return true;
    }
  }

  /** Comparing the counters, which raises when one is not set. */
  method Compare(c: Counters) returns (below: Result<bool>)
    ensures below == Below(c)
  {
    if c.retryCount.None? || c.maxRetries.None? {
      return Err;
    }
    return Ok(c.retryCount.value < c.maxRetries.value);
  }

  /** The first attempt at an event; whatever it raises leaves the delivery unstored. */
  method DispatchEvent(c: Counters, t: Try) returns (stored: Option<WebhookDelivery>)
    ensures stored.Some? <==> Dispatched(c, t).Ok?
    ensures stored.Some? ==> fresh(stored.value) && stored.value.State() == Dispatched(c, t).value
  {
    var delivery := new WebhookDelivery(Filled(c, Succeeds(t.response)));
    if !delivery.success {
      var below := Compare(c);
      if below.Err? {
        return None;
      }
      if below.value {
        delivery.nextRetryAt := Some(t.doneAt + RetryDelay(delivery.retryCount, t.jitter));
      }
    }
    return Some(delivery);
  }

  /** The places of the due deliveries, in table order. */
  function DuePlaces(ds: seq<Delivery>, now: int): seq<nat> {
    if ds == [] then [] else
      DuePlaces(ds[..|ds| - 1], now) + if Due(ds[|ds| - 1], now) then [|ds| - 1] else []
  }

  /** The places one pass handles. */
  function Pending(ds: seq<Delivery>, now: int): seq<nat> {
    var due := DuePlaces(ds, now);
    if |due| <= LIMIT then due else due[..LIMIT]
  }

  lemma {:induction false} DuePlacesIncrease(ds: seq<Delivery>, now: int)
    ensures forall i :: 0 <= i < |DuePlaces(ds, now)| ==> DuePlaces(ds, now)[i] < |ds|
    ensures forall i, j :: 0 <= i < j < |DuePlaces(ds, now)| ==> DuePlaces(ds, now)[i] < DuePlaces(ds, now)[j]
  {
    if ds != [] {
      DuePlacesIncrease(ds[..|ds| - 1], now);
    }
  }

  lemma PendingFacts(ds: seq<Delivery>, now: int)
    ensures var (pending, due) := (Pending(ds, now), DuePlaces(ds, now));
            && pending == (if |due| > 50 then due[..50] else due) && |pending| <= LIMIT
            && (forall i :: 0 <= i < |pending| ==> pending[i] < |ds|)
            && (forall i, j :: 0 <= i < j < |pending| ==> pending[i] < pending[j])
  {
    DuePlacesIncrease(ds, now);
  }

  lemma {:induction false} DuePlacesExact(ds: seq<Delivery>, now: int, p: nat)
    ensures p in DuePlaces(ds, now) <==> p < |ds| && Due(ds[p], now)
  {
    if ds != [] {
      var last := |ds| - 1;
      DuePlacesExact(ds[..last], now, p);
      assert p in DuePlaces(ds, now) <==> p in DuePlaces(ds[..last], now) || (p == last && Due(ds[last], now));
    }
  }

  /** How many of the deliveries at these places still have an active webhook. */
  function ActiveAmong(places: seq<nat>, tries: seq<Try>): (n: nat)
    requires forall i :: 0 <= i < |places| ==> places[i] < |tries|
    ensures n <= |places|
  {
    if places == [] then 0 else
      ActiveAmong(places[..|places| - 1], tries) + if tries[places[|places| - 1]].active then 1 else 0
  }

  lemma ActiveAmongStep(places: seq<nat>, tries: seq<Try>, n: nat)
    requires n < |places| && forall i :: 0 <= i < |places| ==> places[i] < |tries|
    ensures ActiveAmong(places[..n + 1], tries)
         == ActiveAmong(places[..n], tries) + if tries[places[n]].active then 1 else 0
  {
    assert places[..n + 1][..n] == places[..n];
  }

  function States(table: seq<WebhookDelivery>): (ds: seq<Delivery>)
    reads table
    ensures |ds| == |table|
    ensures forall i :: 0 <= i < |ds| ==> ds[i] == table[i].State()
  {
    seq(|table|, i requires 0 <= i < |table| reads table => table[i].State())
  }

  /** One pass of the retry job over the delivery table. */
  method ProcessPendingRetries(table: seq<WebhookDelivery>, now: int, tries: seq<Try>) returns (processed: nat)
    requires |tries| == |table|
    requires forall i, j :: 0 <= i < j < |table| ==> table[i] != table[j]
    modifies table
    ensures forall i :: 0 <= i < |table| ==>
              table[i].State() ==
              if i in Pending(old(States(table)), now) then Processed(old(table[i].State()), tries[i])
              else old(table[i].State())
    ensures forall i :: 0 <= i < |Pending(old(States(table)), now)| ==> Pending(old(States(table)), now)[i] < |tries|
    ensures processed == ActiveAmong(Pending(old(States(table)), now), tries) <= LIMIT
  {
    hide *;
    var pending := Pending(States(table), now);
    PendingFacts(States(table), now);
    processed := 0;
    for n := 0 to |pending|
      invariant processed == ActiveAmong(pending[..n], tries)
      invariant forall i :: 0 <= i < |table| ==>
                  table[i].State() == if i in pending[..n] then Processed(old(table[i].State()), tries[i])
                                      else old(table[i].State())
    {
      var place := pending[n];
      var attempted := table[place].Process(tries[place]);
      assert pending[..n + 1] == pending[..n] + [place];
      ActiveAmongStep(pending, tries, n);
      if attempted {
        processed := processed + 1;
      }
    }
    assert pending[..|pending|] == pending;
  }
}
