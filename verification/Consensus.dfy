/**
 Selecting one miner's answer (api/services/subnet_bridge.py): with three or more valid
 responses the one closest to the median total among those of sufficient quality, with
 fewer the best scored.
 */
module Consensus {
  import opened Outcomes
  import opened Rounding

  datatype Response = Response(uid: nat, total: real, final: real)

  const MIN_QUALITY := 0.3

  // ---------------------------------------------------------------- median

  function Insert(x: real, s: seq<real>): seq<real> {
    if s == [] || x <= s[0] then [x] + s else [s[0]] + Insert(x, s[1..])
  }

  function SortedCopy(s: seq<real>): seq<real> {
    if s == [] then [] else Insert(s[0], SortedCopy(s[1..]))
  }

  function Median(s: seq<real>): real
    requires s != []
  {
    var t := SortedCopy(s);
    SortedCopyFacts(s);
    var mid := |t| / 2;
    if |t| % 2 == 1 then t[mid] else (t[mid - 1] + t[mid]) / 2.0
  }

  predicate Ordered(s: seq<real>) {
    forall i, j :: 0 <= i <= j < |s| ==> s[i] <= s[j]
  }

  lemma {:induction false} InsertFacts(x: real, s: seq<real>)
    requires Ordered(s)
    ensures Ordered(Insert(x, s)) && |Insert(x, s)| == |s| + 1
    ensures multiset(Insert(x, s)) == multiset(s) + multiset{x}
  {
    if s != [] && x > s[0] {
      InsertFacts(x, s[1..]);
      assert s == [s[0]] + s[1..];
      var rest := Insert(x, s[1..]);
      forall j | 0 <= j < |rest|
        ensures s[0] <= rest[j]
      {
        assert rest[j] in multiset(rest);
        if rest[j] != x {
          assert rest[j] in s[1..];
        }
      }
    }
  }

  lemma {:induction false} SortedCopyFacts(s: seq<real>)
    ensures Ordered(SortedCopy(s)) && |SortedCopy(s)| == |s|
    ensures multiset(SortedCopy(s)) == multiset(s)
  {
    if s != [] {
      SortedCopyFacts(s[1..]);
      InsertFacts(s[0], SortedCopy(s[1..]));
      assert s == [s[0]] + s[1..];
    }
  }

  function CountIn(s: seq<real>, lo: real, hi: real): nat {
    if s == [] then 0 else (if lo <= s[0] <= hi then 1 else 0) + CountIn(s[1..], lo, hi)
  }

  lemma {:induction false} CountInsert(x: real, s: seq<real>, lo: real, hi: real)
    ensures CountIn(Insert(x, s), lo, hi) == CountIn(s, lo, hi) + if lo <= x <= hi then 1 else 0
  {
    if s != [] && x > s[0] {
      CountInsert(x, s[1..], lo, hi);
    } else {
      assert ([x] + s)[1..] == s;
    }
  }

  lemma {:induction false} CountSorted(s: seq<real>, lo: real, hi: real)
    ensures CountIn(SortedCopy(s), lo, hi) == CountIn(s, lo, hi)
  {
    if s != [] {
      CountSorted(s[1..], lo, hi);
      CountInsert(s[0], SortedCopy(s[1..]), lo, hi);
    }
  }

  lemma {:induction false} CountSplit(a: seq<real>, b: seq<real>, lo: real, hi: real)
    ensures CountIn(a + b, lo, hi) == CountIn(a, lo, hi) + CountIn(b, lo, hi)
  {
    if a == [] {
      assert a + b == b;
    } else {
      CountSplit(a[1..], b, lo, hi);
      assert (a + b)[1..] == a[1..] + b;
    }
  }

  lemma {:induction false} CountAtMost(s: seq<real>, lo: real, hi: real)
    ensures CountIn(s, lo, hi) <= |s|
    ensures (forall i :: 0 <= i < |s| ==> !(lo <= s[i] <= hi)) ==> CountIn(s, lo, hi) == 0
  {
    if s != [] {
      CountAtMost(s[1..], lo, hi);
    }
  }

  lemma CountOutside(t: seq<real>, lo: real, hi: real, m: nat)
    requires m <= |t|
    ensures (forall i :: 0 <= i < m ==> !(lo <= t[i] <= hi)) ==> CountIn(t, lo, hi) <= |t| - m
    ensures (forall i :: m <= i < |t| ==> !(lo <= t[i] <= hi)) ==> CountIn(t, lo, hi) <= m
  {
    assert t == t[..m] + t[m..];
    CountSplit(t[..m], t[m..], lo, hi);
    CountAtMost(t[..m], lo, hi);
    CountAtMost(t[m..], lo, hi);
  }

  /** In an ordered list more than half of which lies in an interval, the middle places lie in it. */
  lemma MiddleInside(t: seq<real>, lo: real, hi: real, k: nat)
    requires Ordered(t) && 2 * CountIn(t, lo, hi) > |t|
    requires k < |t| && |t| - 2 <= 2 * k <= |t|
    ensures lo <= t[k] <= hi
  {
    hide CountIn;
    if t[k] < lo {
      CountOutside(t, lo, hi, k + 1);
    } else if t[k] > hi {
      CountOutside(t, lo, hi, k);
    }
  }

  /** A strict majority in an interval holds the median there, whatever the others report. */
  lemma MajorityHoldsMedian(s: seq<real>, lo: real, hi: real)
    requires s != [] && 2 * CountIn(s, lo, hi) > |s|
    ensures lo <= Median(s) <= hi
  {
    SortedCopyFacts(s);
    CountSorted(s, lo, hi);
    var t := SortedCopy(s);
    MiddleInside(t, lo, hi, |t| / 2);
    if |t| % 2 == 0 {
      MiddleInside(t, lo, hi, |t| / 2 - 1);
    }
  }

  // ---------------------------------------------------------------- selection

  function Totals(rs: seq<Response>): seq<real> {
    seq(|rs|, i requires 0 <= i < |rs| => rs[i].total)
  }

  function Qualified(rs: seq<Response>): seq<Response> {
    if rs == [] then []
    else (if rs[0].final >= MIN_QUALITY then [rs[0]] else []) + Qualified(rs[1..])
  }

  /** The responses that may be selected: those of sufficient quality, or all when there are none. */
  function Candidates(rs: seq<Response>): seq<Response> {
    if Qualified(rs) == [] then rs else Qualified(rs)
  }

  function Distance(r: Response, x: real): real {
    if r.total >= x then r.total - x else x - r.total
  }

  /** The first of the responses closest to `x`. */
  function Closest(rs: seq<Response>, x: real): Response
    requires rs != []
  {
    if |rs| == 1 then rs[0] else
      var rest := Closest(rs[1..], x);
      if Distance(rs[0], x) <= Distance(rest, x) then rs[0] else rest
  }

  /** The first of the best scored responses. */
  function BestScored(rs: seq<Response>): Response
    requires rs != []
  {
    if |rs| == 1 then rs[0] else
      var rest := BestScored(rs[1..]);
      if rs[0].final >= rest.final then rs[0] else rest
  }

  function SelectByConsensus(rs: seq<Response>): Response
    requires rs != []
  {
    Closest(Candidates(rs), Median(Totals(rs)))
  }

  /** The caller's choice; without valid responses it raises. */
  function Select(rs: seq<Response>): Result<Response> {
    if rs == [] then Err
    else if |rs| >= 3 then Ok(SelectByConsensus(rs))
    else Ok(BestScored(rs))
  }

  /** Place `i` holds a response closest to `x`, and no earlier place does. */
  predicate FirstClosest(rs: seq<Response>, x: real, i: nat) {
    && i < |rs|
    && (forall j :: 0 <= j < i ==> Distance(rs[i], x) < Distance(rs[j], x))
    && (forall j :: i <= j < |rs| ==> Distance(rs[i], x) <= Distance(rs[j], x))
  }

  lemma {:induction false} ClosestFacts(rs: seq<Response>, x: real) returns (i: nat)
    requires rs != []
    ensures FirstClosest(rs, x, i) && rs[i] == Closest(rs, x)
  {
    if |rs| == 1 {
      i := 0;
    } else {
      i := ClosestFacts(rs[1..], x);
      i := if Distance(rs[0], x) <= Distance(rs[1..][i], x) then 0 else i + 1;
      forall j | 0 < j < |rs|
        ensures rs[j] == rs[1..][j - 1]
      {
      }
    }
  }

  lemma {:induction false} QualifiedFacts(rs: seq<Response>)
    ensures forall r :: r in Qualified(rs) <==> r in rs && r.final >= MIN_QUALITY
  {
    if rs != [] {
      QualifiedFacts(rs[1..]);
      assert rs == [rs[0]] + rs[1..];
    }
  }

  lemma ClosestIsCandidate(rs: seq<Response>, x: real)
    requires rs != []
    ensures Closest(rs, x) in rs
    ensures forall r :: r in rs ==> Distance(Closest(rs, x), x) <= Distance(r, x)
  {
    var i := ClosestFacts(rs, x);
  }

  lemma CandidatesFacts(rs: seq<Response>, r: Response)
    requires r in rs && (r.final >= MIN_QUALITY || forall o :: o in rs ==> o.final < MIN_QUALITY)
    ensures r in Candidates(rs)
  {
    QualifiedFacts(rs);
    if r.final < MIN_QUALITY && Qualified(rs) != [] {
      assert Qualified(rs)[0] in Qualified(rs);
    }
  }

  /**
   Whatever the other miners report: when strictly more than half of three or more totals
   lie in [lo, hi], and one of those responses has sufficient quality or none at all has,
   the selected total is at most hi - lo away from that interval.
   */
  lemma RobustSelection(rs: seq<Response>, lo: real, hi: real, inside: Response)
    requires |rs| >= 3 && 2 * CountIn(Totals(rs), lo, hi) > |rs|
    requires inside in rs && lo <= inside.total <= hi
    requires inside.final >= MIN_QUALITY || forall o :: o in rs ==> o.final < MIN_QUALITY
    ensures Select(rs).Ok? && Select(rs).value in rs
    ensures 2.0 * lo - hi <= Select(rs).value.total <= 2.0 * hi - lo
  {
    hide Median, CountIn, Closest;
    var m := Median(Totals(rs));
    MajorityHoldsMedian(Totals(rs), lo, hi);
    CandidatesFacts(rs, inside);
    ClosestIsCandidate(Candidates(rs), m);
    QualifiedFacts(rs);
    assert Distance(Select(rs).value, m) <= Distance(inside, m);
  }

  /** The selected response has sufficient quality whenever any response has. */
  lemma SelectionQuality(rs: seq<Response>)
    requires |rs| >= 3 && exists r :: r in rs && r.final >= MIN_QUALITY
    ensures Select(rs).value.final >= MIN_QUALITY
  {
    var r :| r in rs && r.final >= MIN_QUALITY;
    CandidatesFacts(rs, r);
    QualifiedFacts(rs);
    ClosestIsCandidate(Candidates(rs), Median(Totals(rs)));
  }

  /**
   The quality condition cannot be dropped: as soon as some response qualifies, those that
   do not are out of the selection however many they are.  When all that qualify report
   the same total, that total is selected.
   */
  lemma QualityOverridesMajority(rs: seq<Response>, x: real)
    requires |rs| >= 3 && exists r :: r in rs && r.final >= MIN_QUALITY
    requires forall r :: r in rs && r.final >= MIN_QUALITY ==> r.total == x
    ensures Select(rs).Ok? && Select(rs).value.total == x
  {
    SelectionQuality(rs);
    SelectedIsThere(rs);
  }

  lemma SelectedIsThere(rs: seq<Response>)
    requires |rs| >= 3
    ensures Select(rs).Ok? && Select(rs).value in rs
  {
    hide Median;
    QualifiedFacts(rs);
    ClosestIsCandidate(Candidates(rs), Median(Totals(rs)));
  }

  /** Place `i` holds a response that no other outscores, and no earlier place does. */
  predicate FirstBest(rs: seq<Response>, i: nat) {
    && i < |rs|
    && (forall j :: 0 <= j < |rs| ==> rs[j].final <= rs[i].final)
    && (forall j :: 0 <= j < i ==> rs[j].final < rs[i].final)
  }

  lemma {:induction false} BestScoredFacts(rs: seq<Response>) returns (i: nat)
    requires rs != []
    ensures FirstBest(rs, i) && BestScored(rs) == rs[i]
  {
    if |rs| == 1 {
      i := 0;
    } else {
      i := BestScoredFacts(rs[1..]);
      i := if rs[0].final >= rs[1..][i].final then 0 else i + 1;
      forall j | 0 < j < |rs|
        ensures rs[j] == rs[1..][j - 1]
      {
      }
    }
  }

  /** One or two responses: the first of the best scored is selected. */
  lemma FewSelectTheBest(rs: seq<Response>) returns (i: nat)
    requires 1 <= |rs| <= 2
    ensures FirstBest(rs, i) && Select(rs) == Ok(rs[i])
  {
    i := BestScoredFacts(rs);
  }

  lemma LastIsGreatest(s: seq<real>, t: seq<real>)
    requires Ordered(s) && s != [] && t != [] && multiset(s) == multiset(t)
    ensures t[|t| - 1] <= s[|s| - 1]
  {
    assert t[|t| - 1] in multiset(s);
  }

  lemma WithoutLast(s: seq<real>)
    requires s != []
    ensures multiset(s[..|s| - 1]) == multiset(s) - multiset{s[|s| - 1]}
  {
    assert s == s[..|s| - 1] + [s[|s| - 1]];
  }

  lemma {:induction false} OrderedIsUnique(s: seq<real>, t: seq<real>)
    requires Ordered(s) && Ordered(t) && multiset(s) == multiset(t)
    ensures s == t
  {
    assert |multiset(s)| == |s| && |multiset(t)| == |t|;
    if s != [] {
      var n := |s| - 1;
      LastIsGreatest(s, t);
      LastIsGreatest(t, s);
      WithoutLast(s);
      WithoutLast(t);
      OrderedIsUnique(s[..n], t[..n]);
      assert s == s[..n] + [s[n]] && t == t[..n] + [t[n]];
    }
  }

  /** The median is the middle of the totals in order, or half-way between the two in the middle. */
  lemma MedianFacts(s: seq<real>, ordered: seq<real>, k: nat)
    requires s != [] && Ordered(ordered) && multiset(ordered) == multiset(s)
    ensures |s| == 2 * k + 1 ==> |ordered| == |s| && Median(s) == ordered[k]
    ensures |s| == 2 * k ==> |ordered| == |s| && 2.0 * Median(s) == ordered[k - 1] + ordered[k]
  {
    SortedCopyFacts(s);
    OrderedIsUnique(ordered, SortedCopy(s));
  }

  /** Whether a response may be selected: it has sufficient quality, or none has. */
  predicate MayBeSelected(rs: seq<Response>, r: Response) {
    r in rs && (r.final >= 0.3 || forall o :: o in rs ==> o.final < 0.3)
  }

  /** Three or more responses: one that may be selected is, and none of those is closer to the median. */
  lemma SelectedIsClosest(rs: seq<Response>, other: Response)
    requires |rs| >= 3 && MayBeSelected(rs, other)
    ensures Select(rs).Ok? && MayBeSelected(rs, Select(rs).value)
    ensures Distance(Select(rs).value, Median(Totals(rs))) <= Distance(other, Median(Totals(rs)))
  {
    hide Median;
    CandidatesFacts(rs, other);
    ClosestIsCandidate(Candidates(rs), Median(Totals(rs)));
    QualifiedFacts(rs);
  }

  // ---------------------------------------------------- which majorities hold the selection

  function Trues(bs: seq<bool>): nat {
    if bs == [] then 0 else (if bs[0] then 1 else 0) + Trues(bs[1..])
  }

  /** Responses of these qualities, of which the places marked as inside report a total in [lo, hi]. */
  predicate Reports(rs: seq<Response>, finals: seq<real>, inside: seq<bool>, lo: real, hi: real) {
    && |rs| == |finals| == |inside|
    && forall i :: 0 <= i < |rs| ==> rs[i].final == finals[i] && (inside[i] ==> lo <= rs[i].total <= hi)
  }

  predicate InBand(r: Result<Response>, lo: real, hi: real) {
    r.Ok? && 2.0 * lo - hi <= r.value.total <= 2.0 * hi - lo
  }

  predicate SomeInsideQualifies(finals: seq<real>, inside: seq<bool>)
    requires |finals| == |inside|
  {
    exists i :: 0 <= i < |finals| && inside[i] && finals[i] >= MIN_QUALITY
  }

  predicate NoneQualifies(finals: seq<real>) {
    forall i :: 0 <= i < |finals| ==> finals[i] < MIN_QUALITY
  }

  lemma {:induction false} InsideIsCounted(s: seq<real>, inside: seq<bool>, lo: real, hi: real)
    requires |s| == |inside| && forall i :: 0 <= i < |s| && inside[i] ==> lo <= s[i] <= hi
    ensures CountIn(s, lo, hi) >= Trues(inside)
  {
    if s != [] {
      InsideIsCounted(s[1..], inside[1..], lo, hi);
    }
  }

  lemma {:induction false} SomeTrue(bs: seq<bool>) returns (i: nat)
    requires Trues(bs) > 0
    ensures i < |bs| && bs[i]
  {
    if bs[0] {
      i := 0;
    } else {
      i := SomeTrue(bs[1..]);
      i := i + 1;
    }
  }

  lemma BandHolds(rs: seq<Response>, finals: seq<real>, inside: seq<bool>, lo: real, hi: real)
    requires |rs| >= 3 && Reports(rs, finals, inside, lo, hi) && 2 * Trues(inside) > |inside|
    requires SomeInsideQualifies(finals, inside) || NoneQualifies(finals)
    ensures InBand(Select(rs), lo, hi)
  {
    InsideIsCounted(Totals(rs), inside, lo, hi);
    var i := SomeTrue(inside);
    if SomeInsideQualifies(finals, inside) {
      i :| 0 <= i < |finals| && inside[i] && finals[i] >= MIN_QUALITY;
    }
    assert rs[i] in rs;
    hide CountIn, Trues, Select;
    RobustSelection(rs, lo, hi, rs[i]);
  }

  /** All the places inside report `lo`, the others something beyond the band. */
  function Divided(finals: seq<real>, inside: seq<bool>, lo: real, hi: real): (rs: seq<Response>)
    requires |finals| == |inside|
    ensures |rs| == |finals|
  {
    seq(|finals|, i requires 0 <= i < |finals| =>
      Response(i, if inside[i] then lo else 2.0 * hi - lo + 1.0, finals[i]))
  }

  lemma BandBreaks(finals: seq<real>, inside: seq<bool>, lo: real, hi: real)
    requires |finals| == |inside| >= 3 && lo <= hi
    requires !SomeInsideQualifies(finals, inside) && !NoneQualifies(finals)
    ensures Reports(Divided(finals, inside, lo, hi), finals, inside, lo, hi)
    ensures !InBand(Select(Divided(finals, inside, lo, hi)), lo, hi)
  {
    var rs := Divided(finals, inside, lo, hi);
    var i :| 0 <= i < |finals| && finals[i] >= MIN_QUALITY;
    assert rs[i] in rs && rs[i].final >= MIN_QUALITY;
    forall r | r in rs && r.final >= MIN_QUALITY ensures r.total == 2.0 * hi - lo + 1.0 {
      var j :| 0 <= j < |rs| && rs[j] == r;
      assert !inside[j];
    }
    hide Select;
    QualityOverridesMajority(rs, 2.0 * hi - lo + 1.0);
  }

  /**
   Which majorities hold the selection: given the qualities of three or more responses and
   a strict majority of places whose totals are in [lo, hi], the selected total is at most
   hi - lo away from that interval, whatever the totals, if and only if some place inside
   qualifies or none at all does.
   */
  lemma BandHoldsIff(finals: seq<real>, inside: seq<bool>, lo: real, hi: real)
    requires |finals| == |inside| >= 3 && 2 * Trues(inside) > |inside| && lo <= hi
    ensures (forall rs :: Reports(rs, finals, inside, lo, hi) ==> InBand(Select(rs), lo, hi))
            <==> SomeInsideQualifies(finals, inside) || NoneQualifies(finals)
  {
    hide InBand, Select, Reports, Trues;
    if SomeInsideQualifies(finals, inside) || NoneQualifies(finals) {
      forall rs | Reports(rs, finals, inside, lo, hi) ensures InBand(Select(rs), lo, hi) {
        SameLength(rs, finals, inside, lo, hi);
        BandHolds(rs, finals, inside, lo, hi);
      }
    } else {
      BandBreaks(finals, inside, lo, hi);
    }
  }

  lemma SameLength(rs: seq<Response>, finals: seq<real>, inside: seq<bool>, lo: real, hi: real)
    requires Reports(rs, finals, inside, lo, hi)
    ensures |rs| == |finals| == |inside|
  {
  }

  /** So a single qualified answer beats any majority of unqualified ones, whatever its total. */
  lemma OneQualifiedBeatsMajority(rs: seq<Response>, i: nat, lo: real, hi: real)
    requires |rs| >= 3 && i < |rs| && rs[i].final >= MIN_QUALITY
    requires forall j :: 0 <= j < |rs| && j != i ==> rs[j].final < MIN_QUALITY && lo <= rs[j].total <= hi
    ensures Select(rs).Ok? && Select(rs).value.total == rs[i].total
    ensures 2 * CountIn(Totals(rs), lo, hi) > |rs|
  {
    assert rs[i] in rs;
    QualityOverridesMajority(rs, rs[i].total);
    AllButOneInside(Totals(rs), lo, hi, i);
  }

  lemma AllButOneInside(s: seq<real>, lo: real, hi: real, i: nat)
    requires i < |s| && forall j :: 0 <= j < |s| && j != i ==> lo <= s[j] <= hi
    ensures CountIn(s, lo, hi) >= |s| - 1
  {
    CountSplit(s[..i], s[i..], lo, hi);
    assert s[..i] + s[i..] == s;
    AllInside(s[..i], lo, hi);
    AllInside(s[i..][1..], lo, hi);
  }

  /** A majority in [lo, hi] that lets the far end of the band through. */
  function FarEnd(lo: real, hi: real): seq<Response> {
    [Response(0, 2.0 * hi - lo, 1.0), Response(1, lo, 1.0)]
    + [Response(2, hi, 0.0), Response(3, hi, 0.0), Response(4, hi, 0.0)]
  }

  lemma FarEndCounts(lo: real, hi: real)
    requires lo <= hi
    ensures CountIn(Totals(FarEnd(lo, hi)), lo, hi) >= 3 && CountIn(Totals(FarEnd(lo, hi)), hi, hi) >= 3
  {
    assert Totals(FarEnd(lo, hi)) == [2.0 * hi - lo, lo] + [hi, hi, hi];
    CountSplit([2.0 * hi - lo, lo], [hi, hi, hi], lo, hi);
    CountSplit([2.0 * hi - lo, lo], [hi, hi, hi], hi, hi);
    AllInside([hi, hi, hi], lo, hi);
    AllInside([hi, hi, hi], hi, hi);
  }

  lemma {:induction false} AllInside(s: seq<real>, lo: real, hi: real)
    requires forall i :: 0 <= i < |s| ==> lo <= s[i] <= hi
    ensures CountIn(s, lo, hi) == |s|
  {
    if s != [] {
      AllInside(s[1..], lo, hi);
    }
  }

  lemma {:induction false} NoneQualified(rs: seq<Response>)
    requires forall i :: 0 <= i < |rs| ==> rs[i].final < MIN_QUALITY
    ensures Qualified(rs) == []
  {
    if rs != [] {
      NoneQualified(rs[1..]);
    }
  }

  lemma FarEndCandidates(lo: real, hi: real)
    ensures Candidates(FarEnd(lo, hi)) == FarEnd(lo, hi)[..2]
  {
    var rs := FarEnd(lo, hi);
    assert rs == rs[..2] + rs[2..];
    QualifiedSplit(rs[..2], rs[2..]);
    NoneQualified(rs[2..]);
    assert rs[..2] == [rs[0]] + [rs[1]];
    QualifiedSplit([rs[0]], [rs[1]]);
    assert Qualified([rs[0]]) == [rs[0]] && Qualified([rs[1]]) == [rs[1]];
  }

  /** The band cannot be narrower: for every interval some majority there lets the band's far end through. */
  lemma BandIsTight(lo: real, hi: real)
    requires lo <= hi
    ensures var rs := FarEnd(lo, hi);
            2 * CountIn(Totals(rs), lo, hi) > |rs| && Select(rs) == Ok(rs[0]) && rs[0].total == 2.0 * hi - lo
  {
    hide CountIn, Median, Qualified;
    var rs := FarEnd(lo, hi);
    FarEndCounts(lo, hi);
    FarEndCandidates(lo, hi);
    MajorityHoldsMedian(Totals(rs), hi, hi);
    var two := rs[..2];
    assert two[1..] == [rs[1]] && Closest([rs[1]], hi) == rs[1];
    assert Closest(two, hi) == rs[0];
  }

  lemma {:induction false} QualifiedSplit(a: seq<Response>, b: seq<Response>)
    ensures Qualified(a + b) == Qualified(a) + Qualified(b)
  {
    if a == [] {
      assert a + b == b;
    } else {
      var head := if a[0].final >= MIN_QUALITY then [a[0]] else [];
      QualifiedSplit(a[1..], b);
      calc {
        Qualified(a + b);
        { assert (a + b)[1..] == a[1..] + b && (a + b)[0] == a[0]; }
        head + Qualified(a[1..] + b);
        head + (Qualified(a[1..]) + Qualified(b));
        head + Qualified(a[1..]) + Qualified(b);
      }
    }
  }

  // ---------------------------------------------------------------- agreement

  function Agreeing(rs: seq<Response>, total: real): nat {
    if rs == [] then 0
    else (if Distance(rs[0], total) <= total * 0.2 then 1 else 0) + Agreeing(rs[1..], total)
  }

  /** The share of the valid responses within a fifth of the selected total, in percent and unrounded. */
  function AgreementPercent(rs: seq<Response>, selected: Response): real
    requires rs != []
  {
    if selected.total != 0.0 && |rs| > 1 then Agreeing(rs, selected.total) as real / |rs| as real * 100.0 else 100.0
  }

  /** As it is reported, rounded to one decimal. */
  function ReportedAgreement(rs: seq<Response>, selected: Response): real
    requires rs != []
  {
    Round1(AgreementPercent(rs, selected))
  }

  lemma {:induction false} InsideAgree(rs: seq<Response>, lo: real, hi: real, x: real)
    requires forall r :: r in rs && lo <= r.total <= hi ==> Distance(r, x) <= x * 0.2
    ensures CountIn(Totals(rs), lo, hi) <= Agreeing(rs, x) <= |rs|
  {
    if rs != [] {
      assert Totals(rs)[1..] == Totals(rs[1..]);
      assert rs == [rs[0]] + rs[1..];
      InsideAgree(rs[1..], lo, hi, x);
    }
  }

  function Places(rs: seq<Response>, total: real): set<nat> {
    set i | 0 <= i < |rs| && 0.8 * total <= rs[i].total <= 1.2 * total
  }

  lemma PlacesStep(rs: seq<Response>, total: real)
    requires rs != []
    ensures Places(rs, total)
         == (if 0.8 * total <= rs[0].total <= 1.2 * total then {0} else {}) + Shifted(Places(rs[1..], total))
    ensures 0 !in Shifted(Places(rs[1..], total))
  {
    forall i: nat | i in Places(rs, total) && i > 0 ensures i in Shifted(Places(rs[1..], total)) {
      assert rs[i] == rs[1..][i - 1];
      assert i - 1 in Places(rs[1..], total);
    }
    forall i | i in Shifted(Places(rs[1..], total)) ensures i in Places(rs, total) {
      assert rs[i] == rs[1..][i - 1];
    }
  }

  lemma {:induction false} AgreeingCounts(rs: seq<Response>, total: real)
    requires total >= 0.0
    ensures Agreeing(rs, total) == |Places(rs, total)|
  {
    if rs == [] {
      assert Places(rs, total) == {};
    } else {
      AgreeingCounts(rs[1..], total);
      PlacesStep(rs, total);
      ShiftedSize(Places(rs[1..], total));
      hide Places, Shifted;
      assert Distance(rs[0], total) <= total * 0.2 <==> 0.8 * total <= rs[0].total <= 1.2 * total;
    }
  }

  function Shifted(a: set<nat>): set<nat> {
    set i | i in a :: i + 1
  }

  lemma {:induction false} ShiftedSize(a: set<nat>)
    ensures |Shifted(a)| == |a|
  {
    if a != {} {
      var x :| x in a;
      forall y | y in Shifted(a) - {x + 1} ensures y in Shifted(a - {x}) {
        assert y - 1 in a - {x};
      }
      assert Shifted(a) - {x + 1} == Shifted(a - {x});
      ShiftedSize(a - {x});
    }
  }

  /**
   The agreement of two or more responses is the percentage of places within a fifth of the
   selected total; a response alone, and a selected total of zero, agree fully.
   */
  lemma AgreementIsShare(rs: seq<Response>, selected: Response)
    requires rs != []
    ensures |rs| == 1 || selected.total == 0.0 ==> AgreementPercent(rs, selected) == 100.0
    ensures |rs| >= 2 && selected.total > 0.0 ==>
              AgreementPercent(rs, selected) * |rs| as real == 100.0 * |Places(rs, selected.total)| as real
  {
    if |rs| >= 2 && selected.total > 0.0 {
      AgreeingCounts(rs, selected.total);
      var share := Agreeing(rs, selected.total) as real / |rs| as real;
      assert share * |rs| as real == Agreeing(rs, selected.total) as real;
      assert (share * 100.0) * |rs| as real == 100.0 * (share * |rs| as real);
    }
  }

  /**
   A majority close enough together shows: when the width of its interval is at most a
   tenth of the lowest total that can be selected, at least half of the responses are
   reported as agreeing, and more than half when there are fewer than a thousand.
   */
  lemma MajorityShowsInAgreement(rs: seq<Response>, lo: real, hi: real, inside: Response)
    requires |rs| >= 3 && 2 * CountIn(Totals(rs), lo, hi) > |rs|
    requires inside in rs && lo <= inside.total <= hi
    requires inside.final >= MIN_QUALITY || forall o :: o in rs ==> o.final < MIN_QUALITY
    requires 0.0 < 2.0 * lo - hi && hi - lo <= 0.1 * (2.0 * lo - hi)
    ensures 50.0 < AgreementPercent(rs, Select(rs).value) <= 100.0
    ensures 50.0 <= ReportedAgreement(rs, Select(rs).value) <= 100.0
    ensures |rs| < 1000 ==> 50.0 < ReportedAgreement(rs, Select(rs).value)
  {
    hide CountIn, Select, Round1;
    RobustSelection(rs, lo, hi, inside);
    var x := Select(rs).value.total;
    InsideAgree(rs, lo, hi, x);
    HalfInPercent(Agreeing(rs, x), |rs|);
    ReportedHalf(AgreementPercent(rs, Select(rs).value));
  }

  lemma ReportedHalf(percent: real)
    requires 50.0 < percent <= 100.0
    ensures 50.0 <= Round1(percent) <= 100.0
    ensures percent > 50.05 ==> Round1(percent) > 50.0
  {
    Round1Monotone(50.0, percent);
    Round1Monotone(percent, 100.0);
    Round1OfWhole(50);
    Round1OfWhole(100);
  }

  lemma HalfInPercent(k: nat, n: nat)
    requires 0 < n < 2 * k && k <= n
    ensures 50.0 < k as real / n as real * 100.0 <= 100.0
    ensures n < 1000 ==> k as real / n as real * 100.0 > 50.05
  {
    var a, b := k as real, n as real;
    ShareBounds(a, b, a / b);
  }

  lemma ShareBounds(a: real, b: real, share: real)
    requires b > 0.0 && share == a / b && 2.0 * a >= b + 1.0 && a <= b
    ensures 0.5 < share <= 1.0
    ensures b < 1000.0 ==> share > 0.5005
  {
    assert share * b == a;
    CancelFactor(0.5, share, b);
    CancelFactor(share, 1.0, b);
    assert b < 1000.0 ==> 0.5005 * b < a;
    CancelFactor(0.5005, share, b);
  }

  lemma CancelFactor(x: real, y: real, b: real)
    requires b > 0.0
    ensures x * b < y * b ==> x < y
    ensures x * b <= y * b ==> x <= y
  {
    assert (y - x) * b == y * b - x * b;
  }
}
