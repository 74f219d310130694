/**
 The validator's running scores and the weights it sets (neurons/validator.py).
 */
module Validator {
  import opened Dictionaries
  import opened EmissionFactors
  import opened Estimator
  import opened Outcomes
  import opened Protocol
  import opened Rounding
  import opened Runs
  import Scoring

  /** Updates in which a miner still learns at the higher rate. */
  const COLD_START_ROUNDS := 10

  /** What a new miner is taken to have before its first score. */
  const COLD_START_SEED := 0.3

  /** The configured rate is clamped to [0, 1]. */
  function Alpha(configured: real): (alpha: real)
    ensures Scoring.InUnit(alpha)
    ensures Scoring.InUnit(configured) ==> alpha == configured
  {
    Max(0.0, Min(1.0, configured))
  }

  function ColdAlpha(alpha: real): real {
    Min(0.3, alpha * 3.0)
  }

  datatype State = Standings(scores: Dict<int>, counts: map<int, nat>, zeros: map<int, nat>)

  datatype Update = Update(uid: int, score: real)

  function Count(m: map<int, nat>, uid: int): nat {
    if uid in m then m[uid] else 0
  }

  function Part(rate: real, x: real): real { rate * x }

  /** The moving average: `alpha` of the new score and the rest of the old one. */
  function Blend(alpha: real, before: real, score: real): real {
    Part(1.0 - alpha, before) + Part(alpha, score)
  }

  function Rate(alpha: real, count: nat): real {
    if count <= COLD_START_ROUNDS then ColdAlpha(alpha) else alpha
  }

  function Updated(alpha: real, s: State, u: Update): State {
    var zeros := s.zeros[u.uid := if u.score == 0.0 then Count(s.zeros, u.uid) + 1 else 0];
    if Has(s.scores, u.uid) then
      var count := Count(s.counts, u.uid) + 1;
      Standings(Set(s.scores, u.uid, Blend(Rate(alpha, count), Get(s.scores, u.uid), u.score)),
            s.counts[u.uid := count], zeros)
    else
      Standings(Set(s.scores, u.uid, Blend(ColdAlpha(alpha), COLD_START_SEED, u.score)), s.counts[u.uid := 1], zeros)
  }

  function After(alpha: real, s: State, run: Run<Update>): State {
    match run
    case Start => s
    case Then(before, u) => Updated(alpha, After(alpha, s, before), u)
  }

  // ---------------------------------------------------------------- scores stay between 0 and 1

  predicate AllInUnit(d: Dict<int>) {
    d.Entry? ==> Scoring.InUnit(d.amount) && AllInUnit(d.rest)
  }

  predicate UpdatesInUnit(run: Run<Update>) {
    run.Then? ==> Scoring.InUnit(run.last.score) && UpdatesInUnit(run.before)
  }

  lemma BlendBounds(alpha: real, before: real, score: real)
    requires Scoring.InUnit(alpha) && Scoring.InUnit(before) && Scoring.InUnit(score)
    ensures Scoring.InUnit(Blend(alpha, before, score))
  {
    hide Part;
    PartBounds(1.0 - alpha, before);
    PartBounds(alpha, score);
  }

  lemma PartBounds(rate: real, x: real)
    requires rate >= 0.0 && Scoring.InUnit(x)
    ensures 0.0 <= Part(rate, x) <= rate
  {
    var rest := 1.0 - x;
    assert rate * rest >= 0.0;
    assert rate * x == rate - rate * rest;
  }

  lemma {:induction false} UnitFacts(d: Dict<int>, uid: int, v: real)
    requires AllInUnit(d)
    ensures NonNegative(d) && Scoring.InUnit(Get(d, uid))
    ensures Scoring.InUnit(v) ==> AllInUnit(Set(d, uid, v))
  {
    if d.Entry? {
      UnitFacts(d.rest, uid, v);
    }
  }

  /** From scores between 0 and 1, however loaded, every run of updates leaves them there. */
  lemma {:induction false} ScoresStayInUnit(alpha: real, s: State, run: Run<Update>)
    requires Scoring.InUnit(alpha) && AllInUnit(s.scores) && UpdatesInUnit(run)
    ensures AllInUnit(After(alpha, s, run).scores)
  {
    if run.Then? {
      ScoresStayInUnit(alpha, s, run.before);
      hide Blend, AllInUnit, Set, Get, Has;
      var before, u := After(alpha, s, run.before), run.last;
      var rate := if Has(before.scores, u.uid) then Rate(alpha, Count(before.counts, u.uid) + 1) else ColdAlpha(alpha);
      var prior := if Has(before.scores, u.uid) then Get(before.scores, u.uid) else COLD_START_SEED;
      UnitFacts(before.scores, u.uid, 0.0);
      BlendBounds(rate, prior, u.score);
      UnitFacts(before.scores, u.uid, Blend(rate, prior, u.score));
    }
  }

  // ---------------------------------------------------------------- one miner's own history

  /** The scores one miner got in a run. */
  function ScoresOf(run: Run<Update>, uid: int): Run<real> {
    match run
    case Start => Start
    case Then(before, u) => if u.uid == uid then Then(ScoresOf(before, uid), u.score) else ScoresOf(before, uid)
  }

  function Length(scores: Run<real>): nat {
    match scores
    case Start => 0
    case Then(before, _) => Length(before) + 1
  }

  function TrailingZeros(scores: Run<real>): nat {
    match scores
    case Start => 0
    case Then(before, score) => if score == 0.0 then TrailingZeros(before) + 1 else 0
  }

  /** The running score of a miner that starts new and gets these scores. */
  function Learned(alpha: real, scores: Run<real>): real {
    match scores
    case Start => COLD_START_SEED
    case Then(before, score) => Blend(Rate(alpha, Length(scores)), Learned(alpha, before), score)
  }

  /**
   A new miner's entry depends on nothing but its own scores: not on other miners, and not
   on how their updates are interleaved.  Its zero counter is the trailing run of zeros.
   */
  lemma {:induction false} NewMinerFollowsOwnScores(alpha: real, s: State, run: Run<Update>, uid: int)
    requires !Has(s.scores, uid) && uid !in s.counts && uid !in s.zeros
    ensures var after, scores := After(alpha, s, run), ScoresOf(run, uid);
            && (Has(after.scores, uid) <==> scores.Then?)
            && (scores.Then? ==> Get(after.scores, uid) == Learned(alpha, scores))
            && Count(after.counts, uid) == Length(scores)
            && Count(after.zeros, uid) == TrailingZeros(scores)
  {
    if run.Then? {
      hide Blend, Set, Get, Has, ColdAlpha;
      NewMinerFollowsOwnScores(alpha, s, run.before, uid);
      var before, u := After(alpha, s, run.before), run.last;
      var after := Updated(alpha, before, u);
      var v := Get(after.scores, u.uid);
      GetSet(before.scores, u.uid,
             Blend(Rate(alpha, Count(before.counts, u.uid) + 1), Get(before.scores, u.uid), u.score), uid);
      GetSet(before.scores, u.uid, Blend(ColdAlpha(alpha), COLD_START_SEED, u.score), uid);
    }
  }

  /** The rate for a miner's n-th score: three times the configured one, but at most 0.3, for the first ten. */
  predicate LearnsAt(alpha: real, n: nat, rate: real) {
    if n > 10 then rate == alpha else if alpha * 3.0 > 0.3 then rate == 0.3 else rate == alpha * 3.0
  }

  /**
   An update moves the running score by the rate times its distance to the new score, where
   a new miner starts from 0.3, and moves no other miner's.
   */
  lemma UpdateMovesByRate(alpha: real, s: State, u: Update, rate: real, other: int)
    requires LearnsAt(alpha, if Has(s.scores, u.uid) then Count(s.counts, u.uid) + 1 else 1, rate)
    ensures var (was, after) := (if Has(s.scores, u.uid) then Get(s.scores, u.uid) else 0.3, Updated(alpha, s, u));
            && Get(after.scores, u.uid) - was == rate * (u.score - was)
            && (other != u.uid ==> Get(after.scores, other) == Get(s.scores, other)
                                   && (Has(after.scores, other) <==> Has(s.scores, other)))
  {
    hide Set, Get, Has;
    var v := Get(Updated(alpha, s, u).scores, u.uid);
    GetSet(s.scores, u.uid, Blend(rate, Get(s.scores, u.uid), u.score), u.uid);
    GetSet(s.scores, u.uid, Blend(rate, Get(s.scores, u.uid), u.score), other);
    GetSet(s.scores, u.uid, Blend(rate, 0.3, u.score), u.uid);
    GetSet(s.scores, u.uid, Blend(rate, 0.3, u.score), other);
    BlendMoves(rate, Get(s.scores, u.uid), u.score);
    BlendMoves(rate, 0.3, u.score);
    hide Blend;
  }

  lemma BlendMoves(rate: real, before: real, score: real)
    ensures Blend(rate, before, score) == before + rate * (score - before)
  {
    assert (1.0 - rate) * before + rate * score == before + rate * (score - before);
  }

  function Power(base: real, n: nat): real {
    if n == 0 then 1.0 else base * Power(base, n - 1)
  }

  predicate AllEqual(scores: Run<real>, x: real) {
    scores.Then? ==> scores.last == x && AllEqual(scores.before, x)
  }

  /** What is left of the distance after n scores. */
  function Remaining(alpha: real, cold: real, n: nat): real {
    if n <= 10 then Power(1.0 - cold, n) else Power(1.0 - cold, 10) * Power(1.0 - alpha, n - 10)
  }

  lemma RemainingStep(alpha: real, cold: real, n: nat)
    requires n > 0
    ensures Remaining(alpha, cold, n)
         == Part(1.0 - (if n <= 10 then cold else alpha), Remaining(alpha, cold, n - 1))
  {
    var kept := 1.0 - (if n <= 10 then cold else alpha);
    if n > 10 {
      var p, q := Power(1.0 - cold, 10), Power(1.0 - alpha, n - 11);
      assert Power(1.0 - alpha, n - 10) == kept * q;
      assert n == 11 ==> q == 1.0;
      assert p * (kept * q) == kept * (p * q);
      hide Power;
    }
  }

  lemma GapShrinks(rate: real, was: real, x: real, gap: real, before: real)
    requires was == x + Part(gap, before)
    ensures Blend(rate, was, x) == x + Part(gap, Part(1.0 - rate, before))
  {
    BlendMoves(rate, was, x);
    hide Blend;
    var moved := gap * before;
    assert rate * (x - was) == -(rate * moved);
    assert gap * ((1.0 - rate) * before) == moved - rate * moved;
  }

  lemma {:induction false} EqualScoresClose(alpha: real, cold: real, scores: Run<real>, x: real)
    requires AllEqual(scores, x) && LearnsAt(alpha, 1, cold)
    ensures Learned(alpha, scores) == x + Part(0.3 - x, Remaining(alpha, cold, Length(scores)))
  {
    if scores.Then? {
      hide Remaining, Power, Part, Blend;
      EqualScoresClose(alpha, cold, scores.before, x);
      var n := Length(scores);
      GapShrinks(Rate(alpha, n), Learned(alpha, scores.before), x, 0.3 - x, Remaining(alpha, cold, n - 1));
      RemainingStep(alpha, cold, n);
    } else {
      assert Remaining(alpha, cold, 0) == 1.0;
    }
  }

  /**
   A new miner that gets n scores of x, however they are interleaved with other miners', ends
   at x + (0.3 - x) * (1 - c)^min(n, 10) * (1 - alpha)^max(n - 10, 0), with c = min(0.3, 3 * alpha).
   */
  lemma EqualScoresClosedForm(alpha: real, cold: real, s: State, run: Run<Update>, uid: int, x: real)
    requires !Has(s.scores, uid) && uid !in s.counts && uid !in s.zeros
    requires ScoresOf(run, uid).Then? && AllEqual(ScoresOf(run, uid), x)
    requires cold == if 0.3 < 3.0 * alpha then 0.3 else 3.0 * alpha
    ensures var n := Length(ScoresOf(run, uid));
            Get(After(alpha, s, run).scores, uid) ==
            x + (0.3 - x) * (Power(1.0 - cold, if n < 10 then n else 10)
                             * Power(1.0 - alpha, if n < 10 then 0 else n - 10))
  {
    hide *;
    NewMinerFollowsOwnScores(alpha, s, run, uid);
    ColdRate(alpha, cold);
    EqualScoresClose(alpha, cold, ScoresOf(run, uid), x);
    RemainingFacts(alpha, cold, Length(ScoresOf(run, uid)), 0.3 - x);
  }

  lemma ColdRate(alpha: real, cold: real)
    requires cold == if 0.3 < 3.0 * alpha then 0.3 else 3.0 * alpha
    ensures LearnsAt(alpha, 1, cold)
  {
  }

  lemma RemainingFacts(alpha: real, cold: real, n: nat, gap: real)
    ensures Part(gap, Remaining(alpha, cold, n)) ==
            gap * (Power(1.0 - cold, if n < 10 then n else 10) * Power(1.0 - alpha, if n < 10 then 0 else n - 10))
  {
    assert Power(1.0 - alpha, 0) == 1.0;
    hide Power;
  }

  /** A run of scores at least as high, round by round. */
  predicate AtLeast(better: Run<real>, worse: Run<real>) {
    match better
    case Start => worse.Start?
    case Then(before, score) => worse.Then? && score >= worse.last && AtLeast(before, worse.before)
  }

  lemma BlendMonotone(alpha: real, before: real, score: real, lower: real, lowerScore: real)
    requires Scoring.InUnit(alpha) && before >= lower && score >= lowerScore
    ensures Blend(alpha, before, score) >= Blend(alpha, lower, lowerScore)
  {
    hide Part;
    PartMonotone(1.0 - alpha, before, lower);
    PartMonotone(alpha, score, lowerScore);
  }

  lemma PartMonotone(rate: real, x: real, lower: real)
    requires rate >= 0.0 && x >= lower
    ensures Part(rate, x) >= Part(rate, lower)
  {
    var gap := x - lower;
    assert rate * gap >= 0.0;
    assert rate * x == rate * lower + rate * gap;
  }

  lemma {:induction false} LearnedMonotone(alpha: real, better: Run<real>, worse: Run<real>)
    requires Scoring.InUnit(alpha) && AtLeast(better, worse)
    ensures Length(better) == Length(worse) && Learned(alpha, better) >= Learned(alpha, worse)
  {
    if better.Then? {
      hide Blend;
      LearnedMonotone(alpha, better.before, worse.before);
      BlendMonotone(Rate(alpha, Length(better)), Learned(alpha, better.before), better.last,
                    Learned(alpha, worse.before), worse.last);
    }
  }

  /**
   Of two new miners queried in the same rounds, the one that scored at least as high in
   every round ends with at least the running score and at least the weight.
   */
  lemma BetterMinerEndsHigher(alpha: real, s: State, run: Run<Update>, better: int, worse: int)
    requires Scoring.InUnit(alpha) && AllInUnit(s.scores) && UpdatesInUnit(run)
    requires !Has(s.scores, better) && better !in s.counts && better !in s.zeros
    requires !Has(s.scores, worse) && worse !in s.counts && worse !in s.zeros
    requires ScoresOf(run, better).Then? && AtLeast(ScoresOf(run, better), ScoresOf(run, worse))
    ensures var scores := After(alpha, s, run).scores;
            && Get(scores, better) >= Get(scores, worse)
            && Get(WeightsOf(scores), better) >= Get(WeightsOf(scores), worse)
  {
    var scores := After(alpha, s, run).scores;
    NewMinerFollowsOwnScores(alpha, s, run, better);
    NewMinerFollowsOwnScores(alpha, s, run, worse);
    LearnedMonotone(alpha, ScoresOf(run, better), ScoresOf(run, worse));
    ScoresStayInUnit(alpha, s, run);
    UnitFacts(scores, better, 0.0);
    hide After, ScoresOf, Learned, AllInUnit, UpdatesInUnit, AtLeast, WeightsOf;
    WeightsKeepOrder(scores, better, worse);
  }

  // ---------------------------------------------------------------- weights

  function Size(d: Dict<int>): nat {
    match d
    case Empty => 0
    case Entry(_, _, rest) => Size(rest) + 1
  }

  function Uniform(d: Dict<int>, weight: real): Dict<int> {
    match d
    case Empty => Empty
    case Entry(uid, _, rest) => Entry(uid, weight, Uniform(rest, weight))
  }

  /** Scores over their sum; all alike when every score is zero. */
  function WeightsOf(scores: Dict<int>): Dict<int> {
    if scores.Empty? then Empty
    else if Sum(scores) > 0.0 then Scaled(scores, Sum(scores))
    else Uniform(scores, 1.0 / Size(scores) as real)
  }

  lemma {:induction false} ScaledGet(d: Dict<int>, total: real, uid: int)
    requires total > 0.0
    ensures Get(Scaled(d, total), uid) == Get(d, uid) / total
  {
    if d.Entry? {
      ScaledGet(d.rest, total, uid);
    }
  }

  lemma {:induction false} UniformFacts(d: Dict<int>, weight: real, uid: int)
    requires weight >= 0.0
    ensures NonNegative(Uniform(d, weight)) && Sum(Uniform(d, weight)) == Size(d) as real * weight
    ensures Get(Uniform(d, weight), uid) == if Has(d, uid) then weight else 0.0
  {
    if d.Entry? {
      UniformFacts(d.rest, weight, uid);
      assert (Size(d.rest) + 1) as real * weight == Size(d.rest) as real * weight + weight;
    }
  }

  lemma {:induction false} ZeroSum(d: Dict<int>, uid: int)
    requires NonNegative(d) && Sum(d) <= 0.0
    ensures Get(d, uid) == 0.0
  {
    if d.Entry? {
      AmountFacts(d.rest, uid);
      ZeroSum(d.rest, uid);
    }
  }

  lemma QuotientOfItself(x: real)
    requires x > 0.0
    ensures x / x == 1.0
  {
  }

  /** Weights are non-negative and sum to 1. */
  lemma WeightsSumToOne(scores: Dict<int>)
    requires scores.Entry? && NonNegative(scores)
    ensures NonNegative(WeightsOf(scores)) && Sum(WeightsOf(scores)) == 1.0
  {
    hide Scaled, Uniform, NonNegative;
    if Sum(scores) > 0.0 {
      ScaledFacts(scores, Sum(scores));
      QuotientOfItself(Sum(scores));
    } else {
      UniformFacts(scores, 1.0 / Size(scores) as real, scores.key);
      InverseOfSize(Size(scores));
    }
  }

  lemma InverseOfSize(n: nat)
    requires n > 0
    ensures n as real * (1.0 / n as real) == 1.0
  {
  }

  /** Weights are in proportion to the scores. */
  lemma WeightsInProportion(scores: Dict<int>, uid: int)
    requires Sum(scores) > 0.0
    ensures Get(WeightsOf(scores), uid) * Sum(scores) == Get(scores, uid)
  {
    ScaledGet(scores, Sum(scores), uid);
  }

  /** Weights keep the order of the scores. */
  lemma WeightsKeepOrder(scores: Dict<int>, a: int, b: int)
    requires NonNegative(scores) && Has(scores, a) && Has(scores, b)
    ensures Get(scores, a) >= Get(scores, b) ==> Get(WeightsOf(scores), a) >= Get(WeightsOf(scores), b)
  {
    if Sum(scores) > 0.0 {
      ScaledGet(scores, Sum(scores), a);
      ScaledGet(scores, Sum(scores), b);
      QuotientOrder(Get(scores, a), Get(scores, b), Sum(scores));
    } else {
      UniformFacts(scores, 1.0 / Size(scores) as real, a);
      UniformFacts(scores, 1.0 / Size(scores) as real, b);
    }
  }

  lemma QuotientOrder(x: real, y: real, total: real)
    requires total > 0.0
    ensures x >= y ==> x / total >= y / total
    ensures x / total == 0.0 <==> x == 0.0
  {
  }

  /**
   A miner with score zero gets weight zero exactly when some miner has a positive score;
   when none has, all get the same positive weight.
   */
  lemma ZeroWeightIff(scores: Dict<int>, uid: int)
    requires NonNegative(scores) && Has(scores, uid)
    ensures Get(WeightsOf(scores), uid) == 0.0 <==> Get(scores, uid) == 0.0 && Sum(scores) > 0.0
    ensures Sum(scores) <= 0.0 ==> Get(scores, uid) == 0.0 && Get(WeightsOf(scores), uid) == 1.0 / Size(scores) as real
  {
    if Sum(scores) > 0.0 {
      ScaledGet(scores, Sum(scores), uid);
      QuotientOrder(Get(scores, uid), 0.0, Sum(scores));
    } else {
      ZeroSum(scores, uid);
      UniformFacts(scores, 1.0 / Size(scores) as real, uid);
      InverseOfSize(Size(scores));
    }
  }

  // ---------------------------------------------------------------- scoring a round

  datatype Case = Case(q: Questionnaire, truth: Option<Scoring.Truth>, split: Option<Scoring.Split>)

  /** Error responses, failures and replies whose scoring raises score zero. */
  function ReplyScore(c: Case, r: Reply): real {
    if !Usable(r) || Malformed(r) then 0.0
    else Scoring.FinalScore(r.response, c.q, c.truth, c.split)
  }

  /** The updates of one round. */
  function Round(c: Case, replies: seq<(int, Reply)>): Run<Update> {
    if replies == [] then Start else
      var (uid, reply) := replies[|replies| - 1];
      Then(Round(c, replies[..|replies| - 1]), Update(uid, ReplyScore(c, reply)))
  }

  lemma ReplyScoreInUnit(c: Case, r: Reply)
    ensures Scoring.InUnit(ReplyScore(c, r))
  {
    if r.response.emissions.Some? {
      Scoring.FinalScoreInUnit(r.response, c.q, c.truth, c.split);
    }
  }

  lemma {:induction false} RoundInUnit(c: Case, replies: seq<(int, Reply)>)
    ensures UpdatesInUnit(Round(c, replies))
  {
    if replies != [] {
      hide ReplyScore;
      RoundInUnit(c, replies[..|replies| - 1]);
      ReplyScoreInUnit(c, replies[|replies| - 1].1);
    }
  }

  /** Whatever the miners reply, a round leaves every running score between 0 and 1. */
  lemma RoundKeepsScoresInUnit(alpha: real, s: State, c: Case, replies: seq<(int, Reply)>)
    requires Scoring.InUnit(alpha) && AllInUnit(s.scores)
    ensures AllInUnit(After(alpha, s, Round(c, replies)).scores)
  {
    RoundInUnit(c, replies);
    ScoresStayInUnit(alpha, s, Round(c, replies));
  }

  /**
   A miner that runs the estimator resets its zero counter with every valid questionnaire; an
   invalid one scores zero.
   */
  lemma EstimatorResetsZeroCounter(
    alpha: real, s: State, uid: int, c: Case, t: Tables, w: FieldWeights, factor: Option<real>, r: Response)
    requires Valid(t) && ValidWeights(w)
    requires if ValidQuestionnaire(c.q) then MinerAnswer(t, w, WithDefaults(c.q), factor, r) else r == ERROR_ANSWER
    ensures var score := ReplyScore(c, Reply(true, r));
            && (score > 0.0 <==> ValidQuestionnaire(c.q))
            && Count(Updated(alpha, s, Update(uid, score)).zeros, uid)
            == if ValidQuestionnaire(c.q) then 0 else Count(s.zeros, uid) + 1
  {
    hide ValidQuestionnaire, WithDefaults, Valid, ValidWeights, Blend, Set;
    if ValidQuestionnaire(c.q) {
      MinerAnswerIsClean(t, w, WithDefaults(c.q), factor, r);
      MinerAnswerHasTotals(t, w, WithDefaults(c.q), factor, r);
      Scoring.OwnAnswerNeverScoresZero(t, w, c.q, factor, r, c.truth, c.split);
    }
  }

  lemma MinerAnswerHasTotals(t: Tables, w: FieldWeights, q: Questionnaire, factor: Option<real>, r: Response)
    requires Valid(t) && MinerAnswer(t, w, q, factor, r)
    ensures r.emissions.Some? && Numeric(r.emissions.value) && r != ERROR_ANSWER
  {
  }

  class CarbonValidator {
    const alpha: real
    var scores: Dict<int>
    var counts: map<int, nat>
    var zeros: map<int, nat>

    function State(): State
      reads this
    {
      Standings(scores, counts, zeros)
    }

    /** Scores come from the score file; the counters start empty. */
    constructor (configured: real, loaded: Dict<int>)
      ensures alpha == Alpha(configured) && State() == Standings(loaded, map[], map[])
    {
      alpha := Alpha(configured);
      scores, counts, zeros := loaded, map[], map[];
    }

    method UpdateScores(uid: int, score: real)
      modifies this
      ensures State() == Updated(alpha, old(State()), Update(uid, score))
    {
      hide Part, Set, Get, Has;
      if score == 0.0 {
        zeros := zeros[uid := Count(zeros, uid) + 1];
      } else {
        zeros := zeros[uid := 0];
      }
      if Has(scores, uid) {
        counts := counts[uid := Count(counts, uid) + 1];
        var rate := if counts[uid] <= COLD_START_ROUNDS then ColdAlpha(alpha) else alpha;
        scores := Set(scores, uid, Part(1.0 - rate, Get(scores, uid)) + Part(rate, score));
      } else {
        counts := counts[uid := 1];
        scores := Set(scores, uid, Part(1.0 - ColdAlpha(alpha), COLD_START_SEED) + Part(ColdAlpha(alpha), score));
      }
    }

    method ScoreAndUpdate(c: Case, replies: seq<(int, Reply)>)
      modifies this
      ensures State() == After(alpha, old(State()), Round(c, replies))
    {
      hide Updated, ReplyScore;
      for i := 0 to |replies|
        invariant State() == After(alpha, old(State()), Round(c, replies[..i]))
      {
        var (uid, reply) := replies[i];
        assert replies[..i + 1][..i] == replies[..i];
        var score := ScoreReply(c, reply);
        UpdateScores(uid, score);
      }
      assert replies[..|replies|] == replies;
    }

    /** The weights to set, none while no miner has a score. */
    method SetWeights() returns (weights: Dict<int>)
      ensures weights == WeightsOf(scores)
      ensures weights.Empty? <==> scores.Empty?
    {
      if scores.Empty? {
        return Empty;
      }
      var total := Sum(scores);
      if total > 0.0 {
        weights := Scaled(scores, total);
      } else {
        weights := Uniform(scores, 1.0 / Size(scores) as real);
      }
    }
  }

  method ScoreReply(c: Case, reply: Reply) returns (score: real)
    ensures score == ReplyScore(c, reply)
  {
    var r := reply.response;
    if r.confidence.Some? && r.confidence.value < 0.0 {
      return 0.0;
    }
    if !reply.success || r.emissions.None? {
      return 0.0;
    }
    var result := Scoring.ScoreResponse(r, c.q, c.truth, c.split);
    score := if result.Ok? then result.value else 0.0;
  }
}
