/**
 The two circuit breakers of the subnet bridge (api/services/subnet_bridge.py): one over
 all subnet queries and one per miner position.  Queries run one after the other, and
 every reading of the monotonic clock is an input.
 */
module CircuitBreakers {
  import opened Outcomes
  import Protocol
  import opened Runs
  import opened SlidingWindow

  const MINER_THRESHOLD := 3
  const MINER_RECOVERY := 120
  const GLOBAL_THRESHOLD := 5
  const GLOBAL_RECOVERY := 60

  type Uid = nat

  datatype Breaker = Breaker(failures: nat, openedAt: int)

  const CLOSED := Breaker(0, 0)

  // ---------------------------------------------------------------- the breakers

  function GlobalIsOpen(b: Breaker, now: int): bool {
    b.failures >= GLOBAL_THRESHOLD && now - b.openedAt < GLOBAL_RECOVERY
  }

  /** Asking an expired breaker resets it. */
  function GlobalAsked(b: Breaker, now: int): Breaker {
    if b.failures >= GLOBAL_THRESHOLD && now - b.openedAt >= GLOBAL_RECOVERY then CLOSED else b
  }

  function GlobalFailed(b: Breaker, now: int): Breaker {
    Breaker(b.failures + 1, if b.failures + 1 >= GLOBAL_THRESHOLD then now else b.openedAt)
  }

  /** A position without an entry has a closed breaker. */
  function MinerState(miners: map<Uid, Breaker>, uid: Uid): Breaker {
    if uid in miners then miners[uid] else CLOSED
  }

  predicate MinerIsOpen(miners: map<Uid, Breaker>, uid: Uid, now: int) {
    var b := MinerState(miners, uid);
    b.failures >= MINER_THRESHOLD && now - b.openedAt < MINER_RECOVERY
  }

  /** A miner's breaker after one more failure. */
  function NextFailure(b: Breaker, now: int): Breaker {
    Breaker(b.failures + 1, if b.failures + 1 >= MINER_THRESHOLD then now else b.openedAt)
  }

  function MinerFailed(miners: map<Uid, Breaker>, uid: Uid, now: int): map<Uid, Breaker> {
    miners[uid := NextFailure(MinerState(miners, uid), now)]
  }

  // ---------------------------------------------------------------- one query

  /** When one miner's breaker is asked, the miner's reply if it is queried, and when that is recorded. */
  datatype Answer = Answer(askedAt: int, reply: Protocol.Reply, recordedAt: int)

  /**
   Whether the replies arrive, or listing or querying the miners raises, and if so a
   RuntimeError or another error.
   */
  datatype Transport = Delivered | ListingRaised(runtimeError: bool) | QueryRaised(runtimeError: bool)

  /** A call of `estimate_emissions`: the answers are listed by miner position. */
  datatype Query = Query(at: int, answers: seq<Answer>, transport: Transport, doneAt: int)

  datatype Outcome = Refused | Failed | Crashed | Succeeded

  datatype Bridge = Bridge(global: Breaker, miners: map<Uid, Breaker>)

  /** The clock readings of a query are in order. */
  predicate InOrder(q: Query) {
    q.at <= q.doneAt
    && forall i :: 0 <= i < |q.answers| ==> q.at <= q.answers[i].askedAt <= q.answers[i].recordedAt <= q.doneAt
  }

  /** The positions below `n` whose breakers let the query through. */
  function Active(miners: map<Uid, Breaker>, q: Query, n: nat): seq<Uid>
    requires n <= |q.answers|
  {
    if n == 0 then []
    else Active(miners, q, n - 1) + if MinerIsOpen(miners, n - 1, q.answers[n - 1].askedAt) then [] else [n - 1]
  }

  /** The breakers after the answers of the positions in `uids` have been recorded. */
  function Recorded(miners: map<Uid, Breaker>, q: Query, uids: seq<Uid>): map<Uid, Breaker>
    requires forall i :: 0 <= i < |uids| ==> uids[i] < |q.answers|
  {
    if uids == [] then miners else
      var uid := uids[|uids| - 1];
      var before := Recorded(miners, q, uids[..|uids| - 1]);
      if Protocol.Usable(q.answers[uid].reply) then before - {uid}
      else MinerFailed(before, uid, q.answers[uid].recordedAt)
  }

  lemma {:induction false} ActiveBelow(miners: map<Uid, Breaker>, q: Query, n: nat)
    requires n <= |q.answers|
    ensures forall i :: 0 <= i < |Active(miners, q, n)| ==> Active(miners, q, n)[i] < n
    ensures forall i, j :: 0 <= i < j < |Active(miners, q, n)| ==> Active(miners, q, n)[i] < Active(miners, q, n)[j]
    ensures forall uid :: uid in Active(miners, q, n) <==>
              0 <= uid < n && !MinerIsOpen(miners, uid, q.answers[uid].askedAt)
  {
    if n > 0 {
      ActiveBelow(miners, q, n - 1);
    }
  }

  /** The place of the first of the positions whose reply is malformed, or their number if there is none. */
  function FirstMalformed(q: Query, uids: seq<Uid>): (n: nat)
    requires forall i :: 0 <= i < |uids| ==> uids[i] < |q.answers|
    ensures n <= |uids|
    ensures forall i :: 0 <= i < n ==> !Protocol.Malformed(q.answers[uids[i]].reply)
    ensures n < |uids| ==> Protocol.Malformed(q.answers[uids[n]].reply)
  {
    if uids == [] || Protocol.Malformed(q.answers[uids[0]].reply) then 0 else 1 + FirstMalformed(q, uids[1..])
  }

  /** The positions whose answers a query gets to record: scoring a malformed one raises once it has been recorded. */
  function Handled(miners: map<Uid, Breaker>, q: Query): (uids: seq<Uid>)
    ensures forall i :: 0 <= i < |uids| ==> uids[i] < |q.answers|
    ensures forall uid :: uid in uids ==> uid < |q.answers|
  {
    var active := Active(miners, q, |q.answers|);
    ActiveBelow(miners, q, |q.answers|);
    if !q.transport.Delivered? then []
    else
      var n := FirstMalformed(q, active);
      if n < |active| then active[..n + 1] else active
  }

  function Raised(runtimeError: bool): Outcome {
    if runtimeError then Failed else Crashed
  }

  /** How the subnet query behind the global breaker ends. */
  function AskOutcome(miners: map<Uid, Breaker>, q: Query): Outcome {
    var active := Active(miners, q, |q.answers|);
    ActiveBelow(miners, q, |q.answers|);
    match q.transport
    case ListingRaised(runtimeError) => Raised(runtimeError)
    case QueryRaised(runtimeError) => if active == [] then Failed else Raised(runtimeError)
    case Delivered =>
      if FirstMalformed(q, active) < |active| then Crashed
      else if AnyValid(q, active) then Succeeded
      else Failed
  }

  predicate AnyValid(q: Query, uids: seq<Uid>) {
    exists i :: 0 <= i < |uids| && uids[i] < |q.answers| && Protocol.Usable(q.answers[uids[i]].reply)
  }

  function EstimateOutcome(b: Bridge, q: Query): Outcome {
    if GlobalIsOpen(b.global, q.at) then Refused else AskOutcome(b.miners, q)
  }

  /** One call of `estimate_emissions`. */
  function Estimate(b: Bridge, q: Query): Bridge {
    var g := GlobalAsked(b.global, q.at);
    var miners := Recorded(b.miners, q, Handled(b.miners, q));
    match EstimateOutcome(b, q)
    case Refused => b
    case Succeeded => Bridge(CLOSED, miners)
    case Failed => Bridge(GlobalFailed(g, q.doneAt), miners)
    case Crashed => Bridge(g, miners)
  }

  function After(run: Run<Query>): Bridge {
    match run
    case Start => Bridge(CLOSED, map[])
    case Then(before, q) => Estimate(After(before), q)
  }

  /** One query after the other, and the clock has not passed `now` at the end. */
  predicate Sequential(run: Run<Query>, now: int) {
    run.Then? ==> InOrder(run.last) && run.last.doneAt <= now && Sequential(run.before, run.last.at)
  }

  // ---------------------------------------------------------------- the global breaker

  /** The instants of the queries that failed with a RuntimeError since the last success: those the breaker counts. */
  function GlobalFailures(run: Run<Query>): seq<int> {
    match run
    case Start => []
    case Then(before, q) =>
      match EstimateOutcome(After(before), q)
      case Succeeded => []
      case Failed => GlobalFailures(before) + [q.doneAt]
      case _ => GlobalFailures(before)
  }

  ghost predicate GlobalInvariant(g: Breaker, fails: seq<int>, now: int) {
    && g.failures <= GLOBAL_THRESHOLD && g.failures <= |fails|
    && (g.failures == GLOBAL_THRESHOLD ==> g.openedAt == fails[|fails| - 1])
    && SortedUpTo(fails, now)
    && (forall i :: 0 <= i < |fails| - g.failures ==> fails[i] + GLOBAL_RECOVERY <= now)
    && Spaced(fails, GLOBAL_THRESHOLD, GLOBAL_RECOVERY)
  }

  lemma AskedKeepsInvariant(g: Breaker, fails: seq<int>, now: int, at: int)
    requires GlobalInvariant(g, fails, now) && now <= at && !GlobalIsOpen(g, at)
    ensures GlobalInvariant(GlobalAsked(g, at), fails, at)
    ensures GlobalAsked(g, at).failures < GLOBAL_THRESHOLD
  {
  }

  lemma FailedKeepsInvariant(g: Breaker, fails: seq<int>, now: int, at: int)
    requires GlobalInvariant(g, fails, now) && now <= at && g.failures < GLOBAL_THRESHOLD
    ensures GlobalInvariant(GlobalFailed(g, at), fails + [at], at)
  {
    SpacedAppend(fails, GLOBAL_THRESHOLD, GLOBAL_RECOVERY, at);
  }

  lemma {:induction false} RunKeepsGlobalInvariant(run: Run<Query>, now: int)
    requires Sequential(run, now)
    ensures GlobalInvariant(After(run).global, GlobalFailures(run), now)
  {
    match run
    case Start =>
    case Then(before, q) =>
      hide AskOutcome, Recorded, Handled;
      var b, fails := After(before), GlobalFailures(before);
      RunKeepsGlobalInvariant(before, q.at);
      if !GlobalIsOpen(b.global, q.at) {
        AskedKeepsInvariant(b.global, fails, q.at, q.at);
        FailedKeepsInvariant(GlobalAsked(b.global, q.at), fails, q.at, q.doneAt);
      }
      GlobalInvariantLater(After(run).global, GlobalFailures(run),
                           if EstimateOutcome(b, q) == Failed then q.doneAt else q.at, now);
  }

  lemma GlobalInvariantLater(g: Breaker, fails: seq<int>, now: int, now': int)
    requires GlobalInvariant(g, fails, now) && now <= now'
    ensures GlobalInvariant(g, fails, now')
  {
  }

  /**
   Between successes, any half-open window of the recovery time holds at most the
   threshold number of subnet queries that fail with a RuntimeError.
   */
  lemma GlobalWindowBound(run: Run<Query>, now: int, start: int)
    requires Sequential(run, now)
    ensures CountHalfOpen(GlobalFailures(run), start, 60) <= 5
  {
    RunKeepsGlobalInvariant(run, now);
    SpacedBoundsHalfOpen(GlobalFailures(run), GLOBAL_THRESHOLD, GLOBAL_RECOVERY, start);
  }

  /**
   A query is refused only within the recovery time of the newest failure, after a full
   series of them; so refusals never extend an outage.
   */
  lemma RefusedOnlyAfterRecentFailures(run: Run<Query>, q: Query)
    requires Sequential(run, q.at)
    ensures EstimateOutcome(After(run), q) == Refused ==>
              var fails := GlobalFailures(run);
              |fails| >= 5 && q.at < fails[|fails| - 1] + 60
    ensures EstimateOutcome(After(run), q) == Refused ==> After(Then(run, q)) == After(run)
  {
    hide AskOutcome, Recorded, Handled;
    RunKeepsGlobalInvariant(run, q.at);
    AskedIsNotRefused(After(run).miners, q);
  }

  lemma AskedIsNotRefused(miners: map<Uid, Breaker>, q: Query)
    ensures AskOutcome(miners, q) != Refused
  {
  }

  // ---------------------------------------------------------------- queries that crash

  /** The instants of all admitted queries since the last success that did not succeed, whatever they raised. */
  function Unsuccessful(run: Run<Query>): seq<int> {
    match run
    case Start => []
    case Then(before, q) =>
      match EstimateOutcome(After(before), q)
      case Succeeded => []
      case Refused => Unsuccessful(before)
      case _ => Unsuccessful(before) + [q.doneAt]
  }

  /** The instants of those that raised anything but a RuntimeError. */
  function Crashes(run: Run<Query>): seq<int> {
    match run
    case Start => []
    case Then(before, q) =>
      match EstimateOutcome(After(before), q)
      case Succeeded => []
      case Crashed => Crashes(before) + [q.doneAt]
      case _ => Crashes(before)
  }

  /** A query whose replies arrive crashes exactly when one of the queried miners' replies is malformed. */
  lemma CrashedIffMalformed(miners: map<Uid, Breaker>, q: Query)
    requires q.transport == Delivered
    ensures AskOutcome(miners, q) == Crashed <==>
            exists uid :: 0 <= uid < |q.answers| && !MinerIsOpen(miners, uid, q.answers[uid].askedAt)
                          && Protocol.Malformed(q.answers[uid].reply)
  {
    hide MinerIsOpen, Active;
    var active := Active(miners, q, |q.answers|);
    ActiveBelow(miners, q, |q.answers|);
    var n := FirstMalformed(q, active);
    if n < |active| {
      assert active[n] in active;
    }
  }

  /** Whether a position is queried, because its breaker lets the query through. */
  predicate Queried(miners: map<Uid, Breaker>, q: Query, uid: Uid) {
    uid < |q.answers| && !MinerIsOpen(miners, uid, q.answers[uid].askedAt)
  }

  lemma ActiveAreQueried(miners: map<Uid, Breaker>, q: Query)
    ensures forall uid: Uid :: Queried(miners, q, uid) <==> uid in Active(miners, q, |q.answers|)
  {
    ActiveBelow(miners, q, |q.answers|);
  }

  ghost predicate SomeUsable(miners: map<Uid, Breaker>, q: Query) {
    exists uid: Uid :: Queried(miners, q, uid) && Protocol.Usable(q.answers[uid].reply)
  }

  ghost predicate SomeMalformed(miners: map<Uid, Breaker>, q: Query) {
    exists uid: Uid :: Queried(miners, q, uid) && Protocol.Malformed(q.answers[uid].reply)
  }

  ghost predicate NobodyQueried(miners: map<Uid, Breaker>, q: Query) {
    forall uid: Uid :: !Queried(miners, q, uid)
  }

  lemma MalformedFound(miners: map<Uid, Breaker>, q: Query)
    ensures var active := Active(miners, q, |q.answers|);
            && (forall i :: 0 <= i < |active| ==> active[i] < |q.answers|)
            && (FirstMalformed(q, active) < |active| <==> SomeMalformed(miners, q))
  {
    var active := Active(miners, q, |q.answers|);
    ActiveBelow(miners, q, |q.answers|);
    ActiveAreQueried(miners, q);
    hide Active, Queried, Protocol.Malformed;
    var n := FirstMalformed(q, active);
    if n < |active| {
      assert active[n] in active;
    }
  }

  lemma UsableFound(miners: map<Uid, Breaker>, q: Query)
    ensures AnyValid(q, Active(miners, q, |q.answers|)) <==> SomeUsable(miners, q)
    ensures Active(miners, q, |q.answers|) == [] <==> NobodyQueried(miners, q)
  {
    var active := Active(miners, q, |q.answers|);
    ActiveAreQueried(miners, q);
    hide Active, Queried, Protocol.Usable;
    AnyValidAmong(q, active);
    hide AnyValid;
    if active != [] {
      assert active[0] in active;
    }
  }

  lemma AnyValidAmong(q: Query, uids: seq<Uid>)
    ensures AnyValid(q, uids) <==>
            exists uid: Uid :: uid in uids && uid < |q.answers| && Protocol.Usable(q.answers[uid].reply)
  {
    hide Protocol.Usable;
    if AnyValid(q, uids) {
      var i :| 0 <= i < |uids| && uids[i] < |q.answers| && Protocol.Usable(q.answers[uids[i]].reply);
      assert uids[i] in uids;
    }
  }

  lemma MalformedIsUsable(miners: map<Uid, Breaker>, q: Query)
    ensures SomeMalformed(miners, q) ==> SomeUsable(miners, q)
    ensures NobodyQueried(miners, q) ==> !SomeUsable(miners, q)
  {
    hide Queried, Protocol.Usable;
  }

  /**
   How a query ends: it succeeds exactly when the replies arrive, some queried miner's is
   usable and none's is malformed; it fails exactly when the replies arrive and none is
   usable, or a RuntimeError is raised, or there is nobody to query; and otherwise crashes.
   */
  lemma OutcomeIff(miners: map<Uid, Breaker>, q: Query)
    ensures AskOutcome(miners, q) == Succeeded <==>
            q.transport.Delivered? && SomeUsable(miners, q) && !SomeMalformed(miners, q)
    ensures AskOutcome(miners, q) == Failed <==>
            || (q.transport.Delivered? && !SomeUsable(miners, q))
            || (!q.transport.Delivered? && q.transport.runtimeError)
            || (q.transport.QueryRaised? && NobodyQueried(miners, q))
    ensures AskOutcome(miners, q) != Refused
  {
    MalformedFound(miners, q);
    UsableFound(miners, q);
    MalformedIsUsable(miners, q);
    hide Active, AnyValid, FirstMalformed, SomeUsable, SomeMalformed, NobodyQueried;
  }

  /** Replies are recorded in order, up to the first malformed one: the positions queried with none before them. */
  lemma HandledIff(miners: map<Uid, Breaker>, q: Query, uid: Uid)
    ensures uid in Handled(miners, q) <==>
            && q.transport.Delivered? && Queried(miners, q, uid)
            && (forall other: Uid :: Queried(miners, q, other) && other < uid ==>
                  !Protocol.Malformed(q.answers[other].reply))
  {
    var active := Active(miners, q, |q.answers|);
    ActiveBelow(miners, q, |q.answers|);
    ActiveAreQueried(miners, q);
    hide MinerIsOpen, Active, Protocol.Malformed, Queried;
    var n := FirstMalformed(q, active);
    if q.transport.Delivered? && uid in active {
      var i :| 0 <= i < |active| && active[i] == uid;
      HandledUpTo(q, active, i);
    }
  }

  lemma HandledUpTo(q: Query, active: seq<Uid>, i: nat)
    requires forall j :: 0 <= j < |active| ==> active[j] < |q.answers|
    requires forall j, k :: 0 <= j < k < |active| ==> active[j] < active[k]
    requires i < |active|
    ensures var n := FirstMalformed(q, active);
            && (active[i] in (if n < |active| then active[..n + 1] else active) <==> i <= n)
            && (i <= n <==> forall other: Uid :: other in active && other < active[i] ==>
                              other < |q.answers| && !Protocol.Malformed(q.answers[other].reply))
  {
    hide Protocol.Malformed, FirstMalformed;
    var n := FirstMalformed(q, active);
    if n < i {
      assert active[n] in active && active[n] < active[i];
    } else {
      assert n < |active| ==> active[..n + 1][i] == active[i];
    }
  }

  /** What one more query does to the three logs. */
  lemma LogsStep(before: Run<Query>, q: Query)
    ensures var run, outcome := Then(before, q), EstimateOutcome(After(before), q);
            && (outcome == Succeeded ==> Unsuccessful(run) == GlobalFailures(run) == Crashes(run) == [])
            && (outcome == Refused ==>
                  && Unsuccessful(run) == Unsuccessful(before) && GlobalFailures(run) == GlobalFailures(before)
                  && Crashes(run) == Crashes(before))
            && (outcome == Failed ==>
                  && Unsuccessful(run) == Unsuccessful(before) + [q.doneAt]
                  && GlobalFailures(run) == GlobalFailures(before) + [q.doneAt] && Crashes(run) == Crashes(before))
            && (outcome == Crashed ==>
                  && Unsuccessful(run) == Unsuccessful(before) + [q.doneAt]
                  && GlobalFailures(run) == GlobalFailures(before) && Crashes(run) == Crashes(before) + [q.doneAt])
  {
    hide EstimateOutcome, After;
  }

  lemma {:induction false} UnsuccessfulSplit(run: Run<Query>, start: int)
    ensures CountHalfOpen(Unsuccessful(run), start, GLOBAL_RECOVERY)
         == CountHalfOpen(GlobalFailures(run), start, GLOBAL_RECOVERY)
            + CountHalfOpen(Crashes(run), start, GLOBAL_RECOVERY)
  {
    NothingToCount(start);
    match run
    case Start =>
    case Then(before, q) =>
      hide *;
      UnsuccessfulSplit(before, start);
      LogsStep(before, q);
      CountHalfOpenAppend(Unsuccessful(before), q.doneAt, start, GLOBAL_RECOVERY);
      CountHalfOpenAppend(GlobalFailures(before), q.doneAt, start, GLOBAL_RECOVERY);
      CountHalfOpenAppend(Crashes(before), q.doneAt, start, GLOBAL_RECOVERY);
      assert CountHalfOpen(Unsuccessful(run), start, GLOBAL_RECOVERY)
          == CountHalfOpen(GlobalFailures(run), start, GLOBAL_RECOVERY)
             + CountHalfOpen(Crashes(run), start, GLOBAL_RECOVERY);
  }

  lemma NothingToCount(start: int)
    ensures CountHalfOpen([], start, GLOBAL_RECOVERY) == 0
  {
  }

  /** Between successes, any half-open window holds at most five unsuccessful queries and however many crash in it. */
  lemma UnsuccessfulWindowBound(run: Run<Query>, now: int, start: int)
    requires Sequential(run, now)
    ensures CountHalfOpen(Unsuccessful(run), start, GLOBAL_RECOVERY)
         <= GLOBAL_THRESHOLD + CountHalfOpen(Crashes(run), start, GLOBAL_RECOVERY)
  {
    UnsuccessfulSplit(run, start);
    GlobalWindowBound(run, now, start);
  }

  ghost predicate UnsuccessfulBounded(run: Run<Query>) {
    forall start :: CountHalfOpen(Unsuccessful(run), start, GLOBAL_RECOVERY) <= GLOBAL_THRESHOLD
  }

  /** Listing and querying raise nothing but RuntimeErrors, and only miners at these positions reply with nulls. */
  predicate MalformedOnlyFrom(suspects: set<Uid>, run: Run<Query>) {
    run.Then? ==>
      && MalformedOnlyFrom(suspects, run.before)
      && (run.last.transport.Delivered? || run.last.transport.runtimeError)
      && forall uid :: 0 <= uid < |run.last.answers| && Protocol.Malformed(run.last.answers[uid].reply) ==>
           uid in suspects
  }

  lemma {:induction false} NoSuspectsNoCrashes(run: Run<Query>)
    requires MalformedOnlyFrom({}, run)
    ensures Crashes(run) == []
  {
    if run.Then? {
      NoSuspectsNoCrashes(run.before);
      hide Active, Recorded, AnyValid, FirstMalformed;
      ActiveBelow(After(run.before).miners, run.last, |run.last.answers|);
    }
  }

  const NULL_REPLY := Protocol.Reply(true, Protocol.Response(
    Some(Protocol.Emissions(Protocol.Null, Protocol.Missing, Protocol.Missing, Protocol.Missing)),
    None, None, None, None))

  const EMPTY_REPLY := Protocol.Reply(true, Protocol.Response(
    Some(Protocol.Emissions(Protocol.Missing, Protocol.Missing, Protocol.Missing, Protocol.Missing)),
    None, None, None, None))

  /** A query in which the miner at one position replies with a null and those before it with no totals. */
  function NullQuery(uid: Uid): Query {
    Query(0, seq(uid + 1, i => Answer(0, if i == uid then NULL_REPLY else EMPTY_REPLY, 0)), Delivered, 0)
  }

  function NullRun(uid: Uid, n: nat): Run<Query> {
    if n == 0 then Start else Then(NullRun(uid, n - 1), NullQuery(uid))
  }

  lemma {:induction false} RecordedUsable(q: Query, uids: seq<Uid>)
    requires forall i :: 0 <= i < |uids| ==> uids[i] < |q.answers| && Protocol.Usable(q.answers[uids[i]].reply)
    ensures Recorded(map[], q, uids) == map[]
  {
    if uids != [] {
      RecordedUsable(q, uids[..|uids| - 1]);
    }
  }

  lemma NullQueryCrashes(uid: Uid)
    ensures EstimateOutcome(After(Start), NullQuery(uid)) == Crashed
    ensures Estimate(After(Start), NullQuery(uid)) == After(Start)
  {
    var q := NullQuery(uid);
    assert Protocol.Malformed(q.answers[uid].reply);
    CrashedIffMalformed(map[], q);
    RecordedUsable(q, Handled(map[], q));
  }

  lemma NullQueryShape(uid: Uid)
    ensures var q := NullQuery(uid);
            && InOrder(q) && q.at == q.doneAt == 0 && q.transport == Delivered
            && forall i :: 0 <= i < |q.answers| && Protocol.Malformed(q.answers[i].reply) ==> i == uid
  {
  }

  lemma {:induction false} NullRunIsAllowed(uid: Uid, n: nat)
    ensures Sequential(NullRun(uid, n), 0) && MalformedOnlyFrom({uid}, NullRun(uid, n))
  {
    if n > 0 {
      hide NullQuery, InOrder, Protocol.Malformed;
      NullRunIsAllowed(uid, n - 1);
      NullQueryShape(uid);
    }
  }

  lemma NullRunStep(uid: Uid, n: nat)
    requires n > 0 && After(NullRun(uid, n - 1)) == After(Start)
    ensures NullRun(uid, n) == Then(NullRun(uid, n - 1), NullQuery(uid))
    ensures After(NullRun(uid, n)) == After(Start)
    ensures EstimateOutcome(After(NullRun(uid, n - 1)), NullQuery(uid)) == Crashed && NullQuery(uid).doneAt == 0
  {
    NullQueryCrashes(uid);
    NullQueryShape(uid);
    hide NullQuery, EstimateOutcome, Estimate;
    assert After(NullRun(uid, n)) == Estimate(After(NullRun(uid, n - 1)), NullQuery(uid));
  }

  /** However often such a query is made: it is admitted, crashes, and leaves both breakers as they were. */
  lemma {:induction false} CrashesGoUncounted(uid: Uid, n: nat)
    ensures After(NullRun(uid, n)) == After(Start) && GlobalFailures(NullRun(uid, n)) == []
    ensures CountHalfOpen(Unsuccessful(NullRun(uid, n)), 0, GLOBAL_RECOVERY) == n
  {
    NothingToCount(0);
    if n > 0 {
      hide *;
      CrashesGoUncounted(uid, n - 1);
      NullRunStep(uid, n);
      LogsStep(NullRun(uid, n - 1), NullQuery(uid));
      CountHalfOpenAppend(Unsuccessful(NullRun(uid, n - 1)), 0, 0, GLOBAL_RECOVERY);
      assert GlobalFailures(NullRun(uid, n)) == [];
      assert CountHalfOpen(Unsuccessful(NullRun(uid, n)), 0, GLOBAL_RECOVERY) == n;
    }
  }

  /**
   The bound on all unsuccessful queries holds in every run exactly when no miner can reply
   with a null: one that can makes the platform raise without end and without any breaker
   opening.
   */
  lemma UnsuccessfulBoundedIff(suspects: set<Uid>)
    ensures (forall run, now :: Sequential(run, now) && MalformedOnlyFrom(suspects, run) ==> UnsuccessfulBounded(run))
            <==> suspects == {}
  {
    if suspects == {} {
      forall run, now | Sequential(run, now) && MalformedOnlyFrom(suspects, run)
        ensures UnsuccessfulBounded(run)
      {
        NoSuspectsNoCrashes(run);
        forall start ensures CountHalfOpen(Unsuccessful(run), start, GLOBAL_RECOVERY) <= GLOBAL_THRESHOLD {
          UnsuccessfulWindowBound(run, now, start);
        }
      }
    } else {
      var uid :| uid in suspects;
      var run := NullRun(uid, GLOBAL_THRESHOLD + 1);
      CrashesGoUncounted(uid, GLOBAL_THRESHOLD + 1);
      NullRunIsAllowed(uid, GLOBAL_THRESHOLD + 1);
      FewerSuspects({uid}, suspects, run);
      assert Sequential(run, 0) && !UnsuccessfulBounded(run);
    }
  }

  lemma {:induction false} FewerSuspects(a: set<Uid>, b: set<Uid>, run: Run<Query>)
    requires a <= b && MalformedOnlyFrom(a, run)
    ensures MalformedOnlyFrom(b, run)
  {
    if run.Then? {
      FewerSuspects(a, b, run.before);
    }
  }

  // ---------------------------------------------------------------- the per-miner breakers

  /** Recording touches each handled position once, with its own answer. */
  lemma {:induction false} RecordedAt(miners: map<Uid, Breaker>, q: Query, uids: seq<Uid>, uid: Uid)
    requires forall i :: 0 <= i < |uids| ==> uids[i] < |q.answers|
    requires forall i, j :: 0 <= i < j < |uids| ==> uids[i] < uids[j]
    ensures MinerState(Recorded(miners, q, uids), uid) ==
            if uid !in uids then MinerState(miners, uid)
            else if Protocol.Usable(q.answers[uid].reply) then CLOSED
            else NextFailure(MinerState(miners, uid), q.answers[uid].recordedAt)
  {
    if uids != [] {
      var front, last := uids[..|uids| - 1], uids[|uids| - 1];
      RecordedAt(miners, q, front, uid);
      assert uids == front + [last];
      assert last !in front;
    }
  }

  lemma HandledFacts(miners: map<Uid, Breaker>, q: Query)
    ensures var uids := Handled(miners, q);
            && (forall i, j :: 0 <= i < j < |uids| ==> uids[i] < uids[j])
            && (forall uid :: uid in uids ==> uid < |q.answers| && !MinerIsOpen(miners, uid, q.answers[uid].askedAt))
  {
    ActiveBelow(miners, q, |q.answers|);
  }

  /** The instants at which failures of one position were recorded since its last valid answer. */
  function MinerFailures(run: Run<Query>, uid: Uid): seq<int> {
    match run
    case Start => []
    case Then(before, q) =>
      var b := After(before);
      if EstimateOutcome(b, q) == Refused || uid !in Handled(b.miners, q) then MinerFailures(before, uid)
      else if Protocol.Usable(q.answers[uid].reply) then []
      else MinerFailures(before, uid) + [q.answers[uid].recordedAt]
  }

  ghost predicate MinerInvariant(b: Breaker, fails: seq<int>, now: int) {
    && b.failures == |fails|
    && (b.failures >= MINER_THRESHOLD ==> b.openedAt == fails[|fails| - 1])
    && SortedUpTo(fails, now)
    && Spaced(fails, MINER_THRESHOLD, MINER_RECOVERY)
  }

  lemma NextFailureKeepsInvariant(b: Breaker, fails: seq<int>, now: int, asked: int, at: int)
    requires MinerInvariant(b, fails, now) && now <= asked <= at
    requires !(b.failures >= MINER_THRESHOLD && asked - b.openedAt < MINER_RECOVERY)
    ensures MinerInvariant(NextFailure(b, at), fails + [at], at)
  {
    SpacedAppend(fails, MINER_THRESHOLD, MINER_RECOVERY, at);
  }

  lemma MinerInvariantLater(b: Breaker, fails: seq<int>, now: int, now': int)
    requires MinerInvariant(b, fails, now) && now <= now'
    ensures MinerInvariant(b, fails, now')
  {
  }

  lemma {:induction false} RunKeepsMinerInvariant(run: Run<Query>, uid: Uid, now: int)
    requires Sequential(run, now)
    ensures MinerInvariant(MinerState(After(run).miners, uid), MinerFailures(run, uid), now)
  {
    match run
    case Start =>
    case Then(before, q) =>
      hide MinerInvariant, AskOutcome, Recorded, Handled, MinerState, NextFailure;
      var b, fails := After(before), MinerFailures(before, uid);
      var state := MinerState(b.miners, uid);
      var uids := Handled(b.miners, q);
      RunKeepsMinerInvariant(before, uid, q.at);
      HandledFacts(b.miners, q);
      RecordedAt(b.miners, q, uids, uid);
      if EstimateOutcome(b, q) != Refused && uid in uids {
        HandledKeepsInvariant(b.miners, uid, fails, q);
        MinerInvariantLater(MinerState(After(run).miners, uid), MinerFailures(run, uid),
                            q.answers[uid].recordedAt, now);
      } else {
        MinerInvariantLater(state, fails, q.at, now);
      }
  }

  lemma HandledKeepsInvariant(miners: map<Uid, Breaker>, uid: Uid, fails: seq<int>, q: Query)
    requires InOrder(q) && uid < |q.answers| && !MinerIsOpen(miners, uid, q.answers[uid].askedAt)
    requires MinerInvariant(MinerState(miners, uid), fails, q.at)
    ensures var a := q.answers[uid];
            && MinerInvariant(CLOSED, [], a.recordedAt)
            && MinerInvariant(NextFailure(MinerState(miners, uid), a.recordedAt), fails + [a.recordedAt], a.recordedAt)
  {
    var a := q.answers[uid];
    assert q.at <= a.askedAt <= a.recordedAt;
    NextFailureKeepsInvariant(MinerState(miners, uid), fails, q.at, a.askedAt, a.recordedAt);
  }

  /**
   Between its valid answers, any half-open window of the recovery time holds at most the
   threshold number of failing queries to one miner position.
   */
  lemma MinerWindowBound(run: Run<Query>, uid: Uid, now: int, start: int)
    requires Sequential(run, now)
    ensures CountHalfOpen(MinerFailures(run, uid), start, 120) <= 3
  {
    RunKeepsMinerInvariant(run, uid, now);
    SpacedBoundsHalfOpen(MinerFailures(run, uid), MINER_THRESHOLD, MINER_RECOVERY, start);
  }

  /**
   A position is passed over exactly while its newest failure, the third or later in a row,
   is within the recovery time.
   */
  lemma PassedOverIffRecentFailures(run: Run<Query>, uid: Uid, asked: int, now: int)
    requires Sequential(run, now)
    ensures MinerIsOpen(After(run).miners, uid, asked) <==>
            var fails := MinerFailures(run, uid);
            |fails| >= 3 && asked < fails[|fails| - 1] + 120
  {
    RunKeepsMinerInvariant(run, uid, now);
  }

  // ---------------------------------------------------------------- the bridge

  class SubnetBridge {
    var minerCb: map<Uid, Breaker>
    var globalFailures: nat
    var globalOpenedAt: int

    function State(): Bridge
      reads this
    {
      Bridge(Breaker(globalFailures, globalOpenedAt), minerCb)
    }

    constructor ()
      ensures State() == After(Start)
    {
      minerCb, globalFailures, globalOpenedAt := map[], 0, 0;
    }

    method RecordMinerSuccess(uid: Uid)
      modifies this`minerCb
      ensures minerCb == old(minerCb) - {uid}
    {
      minerCb := minerCb - {uid};
    }

    method RecordMinerFailure(uid: Uid, now: int)
      modifies this`minerCb
      ensures minerCb == MinerFailed(old(minerCb), uid, now)
    {
      var state := if uid in minerCb then minerCb[uid] else Breaker(0, 0);
      state := state.(failures := state.failures + 1);
      if state.failures >= MINER_THRESHOLD {
        state := state.(openedAt := now);
      }
      minerCb := minerCb[uid := state];
    }

    method IsMinerOpen(uid: Uid, now: int) returns (open: bool)
      ensures open == MinerIsOpen(minerCb, uid, now)
    {
      if uid !in minerCb || minerCb[uid].failures < MINER_THRESHOLD {
        return false;
      }
      return now - minerCb[uid].openedAt < MINER_RECOVERY;
    }

    method RecordGlobalSuccess()
      modifies this`globalFailures, this`globalOpenedAt
      ensures State().global == CLOSED
    {
      globalFailures, globalOpenedAt := 0, 0;
    }

    method RecordGlobalFailure(now: int)
      modifies this`globalFailures, this`globalOpenedAt
      ensures State().global == GlobalFailed(old(State()).global, now)
    {
      globalFailures := globalFailures + 1;
      if globalFailures >= GLOBAL_THRESHOLD {
        globalOpenedAt := now;
      }
    }

    /** Asking may itself reset the breaker: the next query is then let through. */
    method IsGlobalOpen(now: int) returns (open: bool)
      modifies this`globalFailures, this`globalOpenedAt
      ensures open == GlobalIsOpen(old(State()).global, now)
      ensures State().global == GlobalAsked(old(State()).global, now)
    {
      if globalFailures < GLOBAL_THRESHOLD {
        return false;
      }
      if now - globalOpenedAt >= GLOBAL_RECOVERY {
        globalFailures, globalOpenedAt := 0, 0;
        return false;
      }
      return true;
    }

    method EstimateEmissions(q: Query) returns (outcome: Outcome)
      modifies this
      ensures outcome == EstimateOutcome(old(State()), q)
      ensures State() == Estimate(old(State()), q)
    {
      var open := IsGlobalOpen(q.at);
      if open {
        return Refused;
      }
      outcome := QuerySubnet(q);
      if outcome == Succeeded {
        RecordGlobalSuccess();
      } else if outcome == Failed {
        RecordGlobalFailure(q.doneAt);
      }
    }

    /** The positions to query: those whose breakers are not open. */
    method ActiveMiners(q: Query) returns (active: seq<Uid>)
      ensures active == Active(minerCb, q, |q.answers|)
    {
      active := [];
      for uid := 0 to |q.answers|
        invariant active == Active(minerCb, q, uid)
      {
        var open := IsMinerOpen(uid, q.answers[uid].askedAt);
        if !open {
          active := active + [uid];
        }
      }
    }

    /** Record the answers of the queried positions in order, until scoring one raises. */
    method RecordAnswers(q: Query, active: seq<Uid>) returns (anyValid: bool, raised: bool)
      requires forall i :: 0 <= i < |active| ==> active[i] < |q.answers|
      modifies this`minerCb
      ensures raised <==> FirstMalformed(q, active) < |active|
      ensures minerCb == Recorded(old(minerCb), q, if raised then active[..FirstMalformed(q, active) + 1] else active)
      ensures !raised ==> (anyValid <==> AnyValid(q, active))
    {
      hide Protocol.Usable, FirstMalformed;
      anyValid := false;
      for i := 0 to |active|
        invariant i <= FirstMalformed(q, active)
        invariant minerCb == Recorded(old(minerCb), q, active[..i])
        invariant anyValid <==> exists j :: 0 <= j < i && Protocol.Usable(q.answers[active[j]].reply)
      {
        var uid := active[i];
        assert active[..i + 1][..i] == active[..i];
        if Protocol.Usable(q.answers[uid].reply) {
          RecordMinerSuccess(uid);
          anyValid := true;
          if Protocol.Malformed(q.answers[uid].reply) {
            return anyValid, true;
          }
        } else {
          RecordMinerFailure(uid, q.answers[uid].recordedAt);
        }
      }
      assert active[..|active|] == active;
      return anyValid, false;
    }

    method QuerySubnet(q: Query) returns (outcome: Outcome)
      modifies this`minerCb
      ensures outcome == AskOutcome(old(minerCb), q)
      ensures minerCb == Recorded(old(minerCb), q, Handled(old(minerCb), q))
    {
      hide Active, Recorded, AnyValid, FirstMalformed;
      RecordedNothing(minerCb, q);
      if q.transport.ListingRaised? {
        return if q.transport.runtimeError then Failed else Crashed;
      }
      var active := ActiveMiners(q);
      ActiveBelow(minerCb, q, |q.answers|);
      if active == [] {
        assert !AnyValid(q, active) by {
          NobodyIsValid(q);
        }
        return Failed;
      }
      if q.transport.QueryRaised? {
        return if q.transport.runtimeError then Failed else Crashed;
      }
      var anyValid, raised := RecordAnswers(q, active);
      return if raised then Crashed else if anyValid then Succeeded else Failed;
    }
  }

  lemma NobodyIsValid(q: Query)
    ensures !AnyValid(q, [])
  {
  }

  lemma RecordedNothing(miners: map<Uid, Breaker>, q: Query)
    ensures Recorded(miners, q, []) == miners
  {
  }
}
