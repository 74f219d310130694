/**
 A subnet query from end to end (api/services/subnet_bridge.py, `_do_subnet_query`): the
 replies of the queried miners are scored in order without a ground truth, and one of the
 valid ones is selected.  Scoring a reply with a null among its totals raises.
 */
module HonestMajority {
  import CircuitBreakers
  import Consensus
  import Dictionaries
  import opened EmissionFactors
  import opened Estimator
  import opened Outcomes
  import opened Protocol
  import Scoring

  type Split = Option<Scoring.Split>

  /** The replies of the queried miners with their positions, in order. */
  type Replies = seq<(nat, Reply)>

  /** A scored response as the selection sees it: its position, its total and its final score. */
  function Judged(uid: nat, r: Response, final: real): Consensus.Response
    requires r.emissions.Some?
  {
    Consensus.Response(uid, r.emissions.value.total.OrZero(), final)
  }

  /** The valid responses, scored; an error as soon as scoring one raises. */
  function JudgedAll(replies: Replies, q: Questionnaire, split: Split): Result<seq<Consensus.Response>> {
    if replies == [] then Ok([]) else
      match JudgedAll(replies[..|replies| - 1], q, split)
      case Err => Err
      case Ok(judged) =>
        var (uid, reply) := replies[|replies| - 1];
        if !Usable(reply) then Ok(judged) else
          match Scoring.Score(reply.response, q, None, split)
          case Err => Err
          case Ok(final) => Ok(judged + [Judged(uid, reply.response, final)])
  }

  datatype Outcome = Selected(response: Consensus.Response) | NoValidResponse | Raised

  function Asked(replies: Replies, q: Questionnaire, split: Split): Outcome {
    match JudgedAll(replies, q, split)
    case Err => Raised
    case Ok(judged) =>
      match Consensus.Select(judged)
      case Err => NoValidResponse
      case Ok(r) => Selected(r)
  }

  lemma JudgedAllStep(replies: Replies, q: Questionnaire, split: Split, n: nat)
    requires n < |replies|
    ensures var (uid, reply) := replies[n];
            var before, after := JudgedAll(replies[..n], q, split), JudgedAll(replies[..n + 1], q, split);
            && (before.Err? ==> after.Err?)
            && (before.Ok? && !Usable(reply) ==> after == before)
            && (before.Ok? && Usable(reply) ==>
                  match Scoring.Score(reply.response, q, None, split)
                  case Err => after.Err?
                  case Ok(final) => after == Ok(before.value + [Judged(uid, reply.response, final)]))
  {
    hide Scoring.Score, Usable;
    assert replies[..n + 1][..n] == replies[..n];
  }

  lemma {:induction false} ErrorsStay(replies: Replies, q: Questionnaire, split: Split, n: nat)
    requires n <= |replies| && JudgedAll(replies[..n], q, split).Err?
    ensures JudgedAll(replies, q, split).Err?
    decreases |replies| - n
  {
    if n == |replies| {
      assert replies[..n] == replies;
    } else {
      JudgedAllStep(replies, q, split, n);
      ErrorsStay(replies, q, split, n + 1);
    }
  }

  method AskMiners(replies: Replies, q: Questionnaire, split: Split) returns (outcome: Outcome)
    ensures outcome == Asked(replies, q, split)
  {
    hide Usable, Scoring.Score, Consensus.Select;
    var judged: seq<Consensus.Response> := [];
    for i := 0 to |replies|
      invariant JudgedAll(replies[..i], q, split) == Ok(judged)
    {
      var (uid, reply) := replies[i];
      JudgedAllStep(replies, q, split, i);
      if !reply.success || reply.response.emissions.None? {
        assert !Usable(reply) by {
          NotUsable(reply);
        }
        continue;
      }
      if reply.response.confidence.Some? && reply.response.confidence.value < 0.0 {
        assert !Usable(reply) by {
          NotUsable(reply);
        }
        continue;
      }
      assert Usable(reply) by {
        NotUsable(reply);
      }
      var score := Scoring.ScoreResponse(reply.response, q, None, split);
      if score.Err? {
        ErrorsStay(replies, q, split, i + 1);
        return Raised;
      }
      judged := judged + [Judged(uid, reply.response, score.value)];
    }
    assert replies[..|replies|] == replies;
    var selected := Consensus.Select(judged);
    outcome := if selected.Ok? then Selected(selected.value) else NoValidResponse;
  }

  lemma NotUsable(r: Reply)
    ensures !r.success || r.response.emissions.None? ==> !Usable(r)
    ensures r.response.confidence.Some? && r.response.confidence.value < 0.0 ==> !Usable(r)
    ensures (&& r.success && r.response.emissions.Some?
             && !(r.response.confidence.Some? && r.response.confidence.value < 0.0)) ==> Usable(r)
  {
  }

  // ---------------------------------------------------------------- what raises

  predicate AnyMalformed(replies: Replies) {
    exists i :: 0 <= i < |replies| && Malformed(replies[i].1)
  }

  function UsableCount(replies: Replies): nat {
    if replies == [] then 0
    else UsableCount(replies[..|replies| - 1]) + if Usable(replies[|replies| - 1].1) then 1 else 0
  }

  lemma {:induction false} RaisedIffMalformed(replies: Replies, q: Questionnaire, split: Split)
    ensures JudgedAll(replies, q, split).Err? <==> AnyMalformed(replies)
    ensures JudgedAll(replies, q, split).Ok? ==> |JudgedAll(replies, q, split).value| == UsableCount(replies)
  {
    if replies != [] {
      hide Usable, Scoring.FinalScore;
      var front, last := replies[..|replies| - 1], replies[|replies| - 1];
      RaisedIffMalformed(front, q, split);
      assert Malformed(last.1) ==> AnyMalformed(replies);
      if AnyMalformed(front) {
        var i :| 0 <= i < |front| && Malformed(front[i].1);
        assert Malformed(replies[i].1);
      }
    }
  }

  // ---------------------------------------------------------------- one or two valid replies

  /** Reply `i` is valid and scored to this response. */
  predicate ScoredAs(replies: Replies, q: Questionnaire, split: Split, i: nat, r: Consensus.Response) {
    && i < |replies| && Usable(replies[i].1)
    && Scoring.Score(replies[i].1.response, q, None, split) == Ok(r.final)
    && r.uid == replies[i].0 && r.total == replies[i].1.response.emissions.value.total.OrZero()
  }

  lemma {:induction false} JudgedComeFrom(replies: Replies, q: Questionnaire, split: Split, k: nat) returns (i: nat)
    requires JudgedAll(replies, q, split).Ok? && k < |JudgedAll(replies, q, split).value|
    ensures ScoredAs(replies, q, split, i, JudgedAll(replies, q, split).value[k])
  {
    hide Usable, Scoring.Score;
    var n := |replies| - 1;
    var before := JudgedAll(replies[..n], q, split).value;
    i := n;
    if k < |before| {
      i := JudgedComeFrom(replies[..n], q, split, k);
    }
  }

  lemma {:induction false} UsableAreJudged(replies: Replies, q: Questionnaire, split: Split, i: nat) returns (k: nat)
    requires JudgedAll(replies, q, split).Ok? && i < |replies| && Usable(replies[i].1)
    ensures k < |JudgedAll(replies, q, split).value|
    ensures ScoredAs(replies, q, split, i, JudgedAll(replies, q, split).value[k])
  {
    hide Usable, Scoring.Score;
    var n := |replies| - 1;
    var before := JudgedAll(replies[..n], q, split).value;
    k := |before|;
    if i < n {
      k := UsableAreJudged(replies[..n], q, split, i);
    }
  }

  /**
   With one or two valid replies, none of them with a null, the selected response comes from
   one of these replies, and no other reply scores higher.
   */
  lemma FewRepliesSelectTheBest(replies: Replies, q: Questionnaire, split: Split) returns (i: nat)
    requires 1 <= UsableCount(replies) <= 2 && !AnyMalformed(replies)
    ensures Asked(replies, q, split).Selected?
    ensures var r := Asked(replies, q, split).response;
            && ScoredAs(replies, q, split, i, r)
            && forall j, other :: ScoredAs(replies, q, split, j, other) ==> other.final <= r.final
  {
    hide Usable, Malformed, Scoring.Score, Consensus.Select;
    RaisedIffMalformed(replies, q, split);
    var judged := JudgedAll(replies, q, split).value;
    var best := Consensus.FewSelectTheBest(judged);
    i := JudgedComeFrom(replies, q, split, best);
    forall j, other | ScoredAs(replies, q, split, j, other) ensures other.final <= judged[best].final {
      var k := UsableAreJudged(replies, q, split, j);
    }
  }

  // ---------------------------------------------------------------- honest miners

  /** What the miners of a query have in common: tables, field weights, questionnaire and supplier's factor. */
  datatype Task = Task(tables: Tables, weights: FieldWeights, q: Questionnaire, supplierFactor: Option<real>)

  predicate ValidTask(task: Task) {
    Valid(task.tables) && ValidWeights(task.weights) && ValidQuestionnaire(task.q)
  }

  /** A reply that arrives and carries what the estimator answers. */
  predicate Honest(task: Task, r: Reply)
    requires ValidTask(task)
  {
    r.success && MinerAnswer(task.tables, task.weights, WithDefaults(task.q), task.supplierFactor, r.response)
  }

  function HonestCount(task: Task, replies: Replies): nat
    requires ValidTask(task)
  {
    if replies == [] then 0
    else HonestCount(task, replies[..|replies| - 1]) + if Honest(task, replies[|replies| - 1].1) then 1 else 0
  }

  /** The total that the estimator gives. */
  function EstimatedTotal(task: Task): real
    requires ValidTask(task)
  {
    var q := WithDefaults(task.q);
    var s := SettingOf(q);
    Totals(Scope1Kg(task.tables, q.data), Scope2Kg(task.tables, q.data, s.region),
           Dictionaries.Sum(Scope3Detail(task.tables, q.data, s))).total.value
  }

  lemma HonestTotals(task: Task, r: Reply)
    requires ValidTask(task) && Honest(task, r)
    ensures r.response.emissions.Some? && Numeric(r.response.emissions.value)
    ensures r.response.emissions.value.total.OrZero() == EstimatedTotal(task)
    ensures r.response != ERROR_ANSWER
  {
  }

  /** An honest reply is valid and scorable, carries the estimator's total and reaches the quality threshold. */
  lemma HonestIsJudged(task: Task, uid: nat, r: Reply, split: Split)
    requires ValidTask(task) && Honest(task, r)
    ensures Usable(r) && !Malformed(r)
    ensures var score := Scoring.Score(r.response, task.q, None, split);
            && score.Ok? && score.value >= Consensus.MIN_QUALITY
            && Judged(uid, r.response, score.value).total == EstimatedTotal(task)
  {
    HonestTotals(task, r);
    hide EstimatedTotal, MinerAnswer, Valid, ValidWeights, ValidQuestionnaire;
    hide WithDefaults, Scoring.FinalScore, Numeric;
    MinerAnswerIsClean(task.tables, task.weights, WithDefaults(task.q), task.supplierFactor, r.response);
    Scoring.OwnAnswerNeverScoresZero(
      task.tables, task.weights, task.q, task.supplierFactor, r.response, None, split);
  }

  /** Some scored response that carries the estimator's total and reaches the quality threshold. */
  ghost predicate HonestInside(judged: seq<Consensus.Response>, total: real) {
    exists i :: 0 <= i < |judged| && judged[i].total == total && judged[i].final >= Consensus.MIN_QUALITY
  }

  lemma TotalsAppend(judged: seq<Consensus.Response>, r: Consensus.Response, total: real)
    ensures Consensus.CountIn(Consensus.Totals(judged + [r]), total, total)
         == Consensus.CountIn(Consensus.Totals(judged), total, total) + if r.total == total then 1 else 0
  {
    assert Consensus.Totals(judged + [r]) == Consensus.Totals(judged) + [r.total];
    Consensus.CountSplit(Consensus.Totals(judged), [r.total], total, total);
  }

  /** Every honest reply counts towards the estimator's total, and is there to be selected. */
  lemma {:induction false} HonestCounted(task: Task, replies: Replies, split: Split)
    requires ValidTask(task) && JudgedAll(replies, task.q, split).Ok?
    ensures var judged, total := JudgedAll(replies, task.q, split).value, EstimatedTotal(task);
            && HonestCount(task, replies) <= Consensus.CountIn(Consensus.Totals(judged), total, total)
            && (HonestCount(task, replies) > 0 ==> HonestInside(judged, total))
  {
    if replies != [] {
      hide EstimatedTotal, Honest, ValidTask, Usable, Malformed, Scoring.Score;
      hide Judged, Consensus.Totals, Consensus.CountIn;
      var front := replies[..|replies| - 1];
      var (uid, reply) := replies[|replies| - 1];
      HonestCounted(task, front, split);
      if Honest(task, reply) {
        HonestIsJudged(task, uid, reply, split);
      }
      if Usable(reply) {
        var before := JudgedAll(front, task.q, split).value;
        var score := Scoring.Score(reply.response, task.q, None, split).value;
        AppendInside(before, Judged(uid, reply.response, score), EstimatedTotal(task));
      }
    }
  }

  lemma AppendInside(judged: seq<Consensus.Response>, r: Consensus.Response, total: real)
    ensures Consensus.CountIn(Consensus.Totals(judged + [r]), total, total)
         == Consensus.CountIn(Consensus.Totals(judged), total, total) + if r.total == total then 1 else 0
    ensures HonestInside(judged, total) || (r.total == total && r.final >= Consensus.MIN_QUALITY) ==>
              HonestInside(judged + [r], total)
  {
    TotalsAppend(judged, r, total);
    var after := judged + [r];
    assert after[|judged|] == r;
    if HonestInside(judged, total) {
      var i :| 0 <= i < |judged| && judged[i].total == total && judged[i].final >= Consensus.MIN_QUALITY;
      assert after[i] == judged[i];
    }
  }

  lemma SelectsInside(judged: seq<Consensus.Response>, total: real)
    requires |judged| >= 3 && 2 * Consensus.CountIn(Consensus.Totals(judged), total, total) > |judged|
    requires HonestInside(judged, total)
    ensures Consensus.Select(judged).Ok? && Consensus.Select(judged).value.total == total
  {
    hide Consensus.CountIn, Consensus.Totals, Consensus.Select;
    var i :| 0 <= i < |judged| && judged[i].total == total && judged[i].final >= Consensus.MIN_QUALITY;
    assert judged[i] in judged;
    Consensus.RobustSelection(judged, total, total, judged[i]);
  }

  /**
   An honest majority decides, unless the query raises: when strictly more than half of
   three or more valid replies to a valid questionnaire come from miners that run this
   estimator, the estimator's total is selected if and only if no valid reply has a null
   among its totals, whatever else the other miners report and however they score.  With
   one such reply the query raises.
   */
  lemma HonestMajorityDecides(task: Task, replies: Replies, split: Split)
    requires ValidTask(task)
    requires UsableCount(replies) >= 3 && 2 * HonestCount(task, replies) > UsableCount(replies)
    ensures var outcome := Asked(replies, task.q, split);
            && (outcome.Selected? && outcome.response.total == EstimatedTotal(task) <==> !AnyMalformed(replies))
            && (outcome.Raised? <==> AnyMalformed(replies))
  {
    hide EstimatedTotal, AnyMalformed, HonestCount, UsableCount, ValidTask, JudgedAll, Consensus.Select;
    RaisedIffMalformed(replies, task.q, split);
    if !AnyMalformed(replies) {
      HonestCounted(task, replies, split);
      SelectsInside(JudgedAll(replies, task.q, split).value, EstimatedTotal(task));
    }
  }

  /** When it does not raise, the total is the one that the platform computes from the questionnaire as it is. */
  lemma HonestMajorityAgreesWithLocal(task: Task, replies: Replies, split: Split, local: Response)
    requires ValidTask(task)
    requires UsableCount(replies) >= 3 && 2 * HonestCount(task, replies) > UsableCount(replies)
    requires LocalAnswer(task.tables, task.weights, task.q, task.supplierFactor, local)
    ensures var outcome := Asked(replies, task.q, split);
            outcome.Selected? && Amount(outcome.response.total) == local.emissions.value.total
            <==> !AnyMalformed(replies)
  {
    LocalTotal(task, local);
    hide *;
    HonestMajorityDecides(task, replies, split);
  }

  lemma LocalTotal(task: Task, local: Response)
    requires ValidTask(task)
    requires LocalAnswer(task.tables, task.weights, task.q, task.supplierFactor, local)
    ensures local.emissions.Some? && local.emissions.value.total == Amount(EstimatedTotal(task))
  {
    DefaultsChangeNoEstimate(task.tables, task.q);
  }

  /** One reply of a null, wherever it comes, makes any query raise. */
  lemma OneNullRaises(before: Replies, uid: nat, later: Replies, q: Questionnaire, split: Split)
    ensures Asked(before + [(uid, CircuitBreakers.NULL_REPLY)] + later, q, split) == Raised
  {
    var replies := before + [(uid, CircuitBreakers.NULL_REPLY)] + later;
    assert Malformed(replies[|before|].1);
    hide Malformed;
    RaisedIffMalformed(replies, q, split);
  }

  // ---------------------------------------------------------------- the breakers

  /** The replies that a query of the breakers' model gets: those of the miners whose breakers are not open. */
  function RepliesOf(miners: map<nat, CircuitBreakers.Breaker>, query: CircuitBreakers.Query): (replies: Replies)
    ensures |replies| == |CircuitBreakers.Active(miners, query, |query.answers|)|
    ensures forall i :: 0 <= i < |replies| ==>
              replies[i].0 < |query.answers| && replies[i].1 == query.answers[replies[i].0].reply
    ensures forall i :: 0 <= i < |replies| ==>
              replies[i].0 == CircuitBreakers.Active(miners, query, |query.answers|)[i]
  {
    var active := CircuitBreakers.Active(miners, query, |query.answers|);
    CircuitBreakers.ActiveBelow(miners, query, |query.answers|);
    seq(|active|, i requires 0 <= i < |active| => (active[i], query.answers[active[i]].reply))
  }

  /** The breakers record a success, a failure or neither exactly as the query selects, finds nothing or raises. */
  lemma BreakersSeeTheOutcome(
    miners: map<nat, CircuitBreakers.Breaker>, query: CircuitBreakers.Query, q: Questionnaire, split: Split)
    requires query.transport == CircuitBreakers.Delivered
    ensures CircuitBreakers.AskOutcome(miners, query)
         == match Asked(RepliesOf(miners, query), q, split)
            case Raised => CircuitBreakers.Crashed
            case Selected(_) => CircuitBreakers.Succeeded
            case NoValidResponse => CircuitBreakers.Failed
  {
    hide Usable, Malformed, CircuitBreakers.Active, JudgedAll, RepliesOf;
    hide Consensus.SelectByConsensus, Consensus.BestScored;
    CircuitBreakers.ActiveBelow(miners, query, |query.answers|);
    var active := CircuitBreakers.Active(miners, query, |query.answers|);
    var replies := RepliesOf(miners, query);
    RaisedIffMalformed(replies, q, split);
    UsableCountPositive(replies);
    var n := CircuitBreakers.FirstMalformed(query, active);
    if n < |active| {
      assert Malformed(replies[n].1);
    }
    if CircuitBreakers.AnyValid(query, active) {
      var i :| 0 <= i < |active| && Usable(query.answers[active[i]].reply);
      assert Usable(replies[i].1);
    }
  }

  lemma {:induction false} UsableCountPositive(replies: Replies)
    ensures UsableCount(replies) > 0 <==> exists i :: 0 <= i < |replies| && Usable(replies[i].1)
  {
    if replies != [] {
      hide Usable;
      UsableCountPositive(replies[..|replies| - 1]);
    }
  }
}
