/**
 The miner's per-hotkey rate limiter (neurons/miner.py, `blacklist`): a sliding
 window of accepted requests per hotkey, held in an ordered dictionary that forgets
 the least recently used hotkey when it is full.
 */
module RateLimiter {
  import opened FiniteSets
  import opened Runs
  import opened SlidingWindow

  type Hotkey = nat

  /** The configuration: requests allowed per window, window length, hotkeys tracked. */
  datatype Limits = Limits(max: int, window: int, capacity: nat)

  /** The ordered dictionary: keys from least to most recently used, and each key's deque. */
  datatype Tracker = Tracker(order: seq<Hotkey>, times: map<Hotkey, seq<int>>)

  const EMPTY_TRACKER := Tracker([], map[])

  datatype Call = Call(who: Hotkey, now: int)

  // ---------------------------------------------------------------- one call

  function Without(ks: seq<Hotkey>, k: Hotkey): seq<Hotkey> {
    if ks == [] then [] else if ks[0] == k then Without(ks[1..], k) else [ks[0]] + Without(ks[1..], k)
  }

  /** The entries that are still inside the window. */
  function Prune(times: seq<int>, cutoff: int): (kept: seq<int>)
    ensures |kept| <= |times| && kept == times[|times| - |kept|..]
    ensures forall i :: 0 <= i < |times| - |kept| ==> times[i] < cutoff
    ensures kept != [] ==> kept[0] >= cutoff
  {
    if times != [] && times[0] < cutoff then Prune(times[1..], cutoff) else times
  }

  /** The dictionary after dropping its oldest entries until fewer than `capacity` are left. */
  function Evict(s: Tracker, capacity: nat): Tracker
    requires capacity > 0
    decreases |s.order|
  {
    if |s.order| < capacity then s
    else Evict(Tracker(s.order[1..], s.times - {s.order[0]}), capacity)
  }

  /** The dictionary with `k` most recently used, tracked from now on if it was not. */
  function Touch(s: Tracker, k: Hotkey, capacity: nat): (t: Tracker)
    requires capacity > 0
    ensures k in t.times
  {
    if k in s.times then Tracker(Without(s.order, k) + [k], s.times)
    else var e := Evict(s, capacity); Tracker(e.order + [k], e.times[k := []])
  }

  /** One call that reaches the limiter: the new dictionary, and whether the call is accepted. */
  function Admit(l: Limits, s: Tracker, c: Call): (Tracker, bool)
    requires l.capacity > 0
  {
    var t := Touch(s, c.who, l.capacity);
    var kept := Prune(t.times[c.who], c.now - l.window);
    if |kept| >= l.max then (t.(times := t.times[c.who := kept]), false)
    else (t.(times := t.times[c.who := kept + [c.now]]), true)
  }

  // ------------------------------------------------------------ whole runs

  /** The dictionary after a run of calls from an empty one. */
  function After(l: Limits, run: Run<Call>): Tracker
    requires l.capacity > 0
  {
    match run
    case Start => EMPTY_TRACKER
    case Then(before, c) => Admit(l, After(l, before), c).0
  }

  predicate Tracked(l: Limits, run: Run<Call>, k: Hotkey)
    requires l.capacity > 0
  {
    k in After(l, run).times
  }

  /** Whether a call that follows the run is accepted. */
  predicate Accepts(l: Limits, run: Run<Call>, c: Call)
    requires l.capacity > 0
  {
    Admit(l, After(l, run), c).1
  }

  /** The instants of all accepted calls of `k`. */
  function AllAccepted(l: Limits, run: Run<Call>, k: Hotkey): seq<int>
    requires l.capacity > 0
  {
    match run
    case Start => []
    case Then(before, c) =>
      AllAccepted(l, before, k) + if c.who == k && Accepts(l, before, c) then [c.now] else []
  }

  /** What the accepted calls of `k` since it has been tracked become after one more call. */
  function Grown(l: Limits, s: Tracker, c: Call, k: Hotkey, history: seq<int>): seq<int>
    requires l.capacity > 0
  {
    var (s', accepted) := Admit(l, s, c);
    if k !in s'.times then [] else if c.who == k && accepted then history + [c.now] else history
  }

  /** The instants of the accepted calls of `k` since the limiter last had no entry for it. */
  function AcceptedWhileTracked(l: Limits, run: Run<Call>, k: Hotkey): seq<int>
    requires l.capacity > 0
  {
    match run
    case Start => []
    case Then(before, c) => Grown(l, After(l, before), c, k, AcceptedWhileTracked(l, before, k))
  }

  /** The clock does not go backwards, and has not passed `now` at the end of the run. */
  predicate ClockMonotone(run: Run<Call>, now: int) {
    run.Then? ==> run.last.now <= now && ClockMonotone(run.before, run.last.now)
  }

  // ----------------------------------------------- the dictionary is an LRU list

  /** The distinct callers of a run, from least to most recent last call. */
  function Recency(run: Run<Call>): seq<Hotkey> {
    match run
    case Start => []
    case Then(before, c) => Without(Recency(before), c.who) + [c.who]
  }

  function Callers(run: Run<Call>): set<Hotkey> {
    match run
    case Start => {}
    case Then(before, c) => Callers(before) + {c.who}
  }

  /** The distinct other callers since the last call of `k`. */
  function CallersSince(run: Run<Call>, k: Hotkey): set<Hotkey> {
    match run
    case Start => {}
    case Then(before, c) => if c.who == k then {} else CallersSince(before, k) + {c.who}
  }

  predicate Distinct(ks: seq<Hotkey>) {
    forall i, j :: 0 <= i < j < |ks| ==> ks[i] != ks[j]
  }

  function Newest(ks: seq<Hotkey>, n: nat): seq<Hotkey> {
    if |ks| <= n then ks else ks[|ks| - n..]
  }

  lemma {:induction false} WithoutFacts(ks: seq<Hotkey>, k: Hotkey)
    ensures forall x :: x in Without(ks, k) <==> x in ks && x != k
    ensures Distinct(ks) ==> Distinct(Without(ks, k))
    ensures Distinct(ks) ==> |Without(ks, k)| == if k in ks then |ks| - 1 else |ks|
    ensures k !in ks ==> Without(ks, k) == ks
  {
    if ks != [] {
      WithoutFacts(ks[1..], k);
      assert ks == [ks[0]] + ks[1..];
      if Distinct(ks) {
        assert ks[0] !in ks[1..];
      }
    }
  }

  lemma {:induction false} WithoutSplit(a: seq<Hotkey>, b: seq<Hotkey>, k: Hotkey)
    ensures Without(a + b, k) == Without(a, k) + Without(b, k)
  {
    if a == [] {
      assert a + b == b;
    } else {
      var head := if a[0] == k then [] else [a[0]];
      WithoutSplit(a[1..], b, k);
      calc {
        Without(a + b, k);
        { assert (a + b)[1..] == a[1..] + b && (a + b)[0] == a[0]; }
        head + Without(a[1..] + b, k);
        head + (Without(a[1..], k) + Without(b, k));
        head + Without(a[1..], k) + Without(b, k);
      }
    }
  }

  lemma {:induction false} RecencyFacts(run: Run<Call>)
    ensures Distinct(Recency(run))
    ensures forall k :: k in Recency(run) <==> k in Callers(run)
  {
    if run.Then? {
      RecencyFacts(run.before);
      WithoutFacts(Recency(run.before), run.last.who);
    }
  }

  ghost predicate Aligned(s: Tracker) {
    && Distinct(s.order)
    && (forall k :: k in s.order <==> k in s.times)
  }

  lemma EvictDropsOne(s: Tracker, capacity: nat)
    requires capacity > 0 && Aligned(s) && |s.order| <= capacity
    ensures Aligned(Evict(s, capacity))
    ensures Evict(s, capacity).order == if |s.order| < capacity then s.order else s.order[1..]
    ensures forall k :: k in Evict(s, capacity).times ==> k in s.times && Evict(s, capacity).times[k] == s.times[k]
  {
    if |s.order| == capacity {
      var e := Tracker(s.order[1..], s.times - {s.order[0]});
      assert Evict(s, capacity) == Evict(e, capacity) == e;
      assert s.order == [s.order[0]] + s.order[1..];
    }
  }

  lemma NewestOfConcat(a: seq<Hotkey>, b: seq<Hotkey>, n: nat)
    requires |b| == n || (a == [] && |b| <= n)
    ensures Newest(a + b, n) == b
  {
  }

  /** What one call does to the order of the keys. */
  lemma AdmitMoves(l: Limits, s: Tracker, c: Call)
    requires l.capacity > 0 && Aligned(s) && |s.order| <= l.capacity
    ensures var s' := Admit(l, s, c).0;
            && Aligned(s') && |s'.order| <= l.capacity
            && s'.order == if c.who in s.order then Without(s.order, c.who) + [c.who]
                           else if |s.order| == l.capacity then s.order[1..] + [c.who]
                           else s.order + [c.who]
  {
    if c.who in s.order {
      WithoutFacts(s.order, c.who);
    } else {
      EvictDropsOne(s, l.capacity);
    }
  }

  lemma NewestSplit(r: seq<Hotkey>, n: nat) returns (rest: seq<Hotkey>)
    ensures r == rest + Newest(r, n)
    ensures |Newest(r, n)| <= n
    ensures |Newest(r, n)| == n || rest == []
  {
    rest := r[..|r| - |Newest(r, n)|];
  }

  /** Making a key the newest of the `n` newest is the same before and after cutting the list. */
  lemma NewestOfMoved(rest: seq<Hotkey>, cut: seq<Hotkey>, k: Hotkey, n: nat)
    requires 0 < n && (|cut| == n || (rest == [] && |cut| <= n))
    requires k in cut ==> k !in rest && |Without(cut, k)| + 1 == |cut|
    ensures Newest(Without(rest + cut, k) + [k], n) ==
            if k in cut then Without(cut, k) + [k]
            else if |cut| == n then cut[1..] + [k] else cut + [k]
  {
    var a, b := Without(rest, k), Without(cut, k);
    assert Without(rest + cut, k) + [k] == a + (b + [k]) by {
      WithoutSplit(rest, cut, k);
    }
    if k in cut {
      assert a == rest by { WithoutFacts(rest, k); }
      NewestOfConcat(a, b + [k], n);
    } else {
      assert b == cut by { WithoutFacts(cut, k); }
      if |cut| == n {
        assert a + (cut + [k]) == (a + cut[..1]) + (cut[1..] + [k]);
        NewestOfConcat(a + cut[..1], cut[1..] + [k], n);
      } else {
        NewestOfConcat(a, cut + [k], n);
      }
    }
  }

  lemma AbsentFromRest(rest: seq<Hotkey>, cut: seq<Hotkey>, k: Hotkey)
    requires Distinct(rest + cut) && k in cut
    ensures k !in rest
    ensures Distinct(cut)
  {
    var j :| 0 <= j < |cut| && cut[j] == k;
    assert (rest + cut)[|rest| + j] == k;
    forall i | 0 <= i < |rest| ensures rest[i] != k {
      assert (rest + cut)[i] == rest[i];
    }
    forall i, i' | 0 <= i < i' < |cut| ensures cut[i] != cut[i'] {
      assert (rest + cut)[|rest| + i] == cut[i] && (rest + cut)[|rest| + i'] == cut[i'];
    }
  }

  /**
   The dictionary always holds exactly the `capacity` hotkeys that called most
   recently, in order of their last call.
   */
  lemma {:induction false} OrderIsRecency(l: Limits, run: Run<Call>)
    requires l.capacity > 0
    ensures After(l, run).order == Newest(Recency(run), l.capacity)
    ensures Aligned(After(l, run))
    ensures |After(l, run).order| <= l.capacity
  {
    if run.Then? {
      var before, k := run.before, run.last.who;
      OrderIsRecency(l, before);
      var s := After(l, before);
      AdmitMoves(l, s, run.last);
      var rest := NewestSplit(Recency(before), l.capacity);
      if k in s.order {
        WithoutFacts(s.order, k);
        RecencyFacts(before);
        AbsentFromRest(rest, s.order, k);
      }
      NewestOfMoved(rest, s.order, k, l.capacity);
    }
  }

  // -------------------------------------------------- when a hotkey is forgotten

  function Elements(ks: seq<Hotkey>): set<Hotkey> {
    set k | k in ks
  }

  lemma {:induction false} SizeOfDistinct(ks: seq<Hotkey>)
    requires Distinct(ks)
    ensures |Elements(ks)| == |ks|
  {
    if ks != [] {
      var front := ks[..|ks| - 1];
      SizeOfDistinct(front);
      assert Elements(ks) == Elements(front) + {ks[|ks| - 1]};
      assert ks[|ks| - 1] !in front;
    }
  }

  /** In the recency list, what follows `k` are the distinct callers since `k` last called. */
  lemma {:induction false} RecencySplit(run: Run<Call>, k: Hotkey) returns (older: seq<Hotkey>, newer: seq<Hotkey>)
    requires k in Callers(run)
    ensures Recency(run) == older + [k] + newer
    ensures Elements(newer) == CallersSince(run, k)
  {
    var before, c := run.before, run.last.who;
    if c == k {
      older, newer := Without(Recency(before), k), [];
    } else {
      var o, n := RecencySplit(before, k);
      WithoutSplit(o + [k], n, c);
      WithoutSplit(o, [k], c);
      WithoutFacts([k], c);
      WithoutFacts(n, c);
      older, newer := Without(o, c), Without(n, c) + [c];
    }
  }

  lemma PositionInNewest(a: seq<Hotkey>, k: Hotkey, b: seq<Hotkey>, n: nat)
    requires Distinct(a + [k] + b)
    ensures k in Newest(a + [k] + b, n) <==> |b| < n
    ensures Distinct(b)
  {
    var r := a + [k] + b;
    var o := Newest(r, n);
    assert r[|a|] == k;
    if |b| < n {
      assert o[|o| - |b| - 1] == k;
    }
    forall i, j | 0 <= i < j < |b| ensures b[i] != b[j] {
      assert r[|a| + 1 + i] == b[i] && r[|a| + 1 + j] == b[j];
    }
  }

  /**
   The limiter never tracks more than `capacity` hotkeys, and one that has called is
   still tracked exactly when fewer than `capacity` distinct others have called since.
   */
  lemma ForgottenOnlyAfterCapacityOthers(l: Limits, run: Run<Call>, k: Hotkey)
    requires l.capacity > 0
    ensures |After(l, run).times| <= l.capacity
    ensures Tracked(l, run, k) <==> k in Callers(run) && |CallersSince(run, k)| < l.capacity
  {
    OrderIsRecency(l, run);
    RecencyFacts(run);
    var order := After(l, run).order;
    SizeOfDistinct(order);
    assert After(l, run).times.Keys == Elements(order);
    if k in Callers(run) {
      var older, newer := RecencySplit(run, k);
      PositionInNewest(older, k, newer, l.capacity);
      SizeOfDistinct(newer);
    }
  }

  // ------------------------------------------------------------ the window bound

  /** The limit as a count: a non-positive setting lets nothing through. */
  function Quota(l: Limits): nat {
    if l.max > 0 then l.max else 0
  }

  /** The deque of `k`, which counts as empty when there is none. */
  function DequeOf(s: Tracker, k: Hotkey): seq<int> {
    if k in s.times then s.times[k] else []
  }

  /** How the deque of `k` relates to the accepted calls since it has been tracked. */
  ghost predicate DequeInvariant(l: Limits, now: int, history: seq<int>, deque: seq<int>) {
    && IsTail(l.window, now, history, deque)
    && |deque| <= Quota(l)
    && (history != [] ==> history[|history| - 1] <= now)
    && Sorted(history)
    && Spaced(history, Quota(l), l.window + 1)
  }

  /** The deque is the end of the history, and what it misses is out of the window. */
  predicate IsTail(window: int, now: int, history: seq<int>, deque: seq<int>) {
    && |deque| <= |history|
    && deque == history[|history| - |deque|..]
    && (forall i :: 0 <= i < |history| - |deque| ==> history[i] + window < now)
  }

  lemma PruneKeepsTail(window: int, before: int, history: seq<int>, deque: seq<int>, now: int)
    requires before <= now && IsTail(window, before, history, deque)
    ensures IsTail(window, now, history, Prune(deque, now - window))
  {
    var kept := Prune(deque, now - window);
    var h, d := |history|, |deque|;
    assert kept == history[h - |kept|..];
    forall i | 0 <= i < h - |kept|
      ensures history[i] + window < now
    {
      if h - d <= i {
        assert deque[i - (h - d)] == history[i];
      }
    }
  }

  lemma PruneKeepsInvariant(l: Limits, before: int, history: seq<int>, deque: seq<int>, now: int)
    requires before <= now && DequeInvariant(l, before, history, deque)
    ensures DequeInvariant(l, now, history, Prune(deque, now - l.window))
  {
    PruneKeepsTail(l.window, before, history, deque, now);
  }

  /** After pruning, the deque holds exactly the accepted calls of the closed window that ends now. */
  lemma PrunedDequeIsWindow(l: Limits, history: seq<int>, deque: seq<int>, now: int)
    requires DequeInvariant(l, now, history, deque)
    requires deque != [] ==> now - l.window <= deque[0]
    ensures CountClosed(history, now - l.window, l.window) == |deque|
  {
    var n := |history| - |deque|;
    forall i | n <= i < |history|
      ensures now - l.window <= history[i]
    {
      assert deque[0] == history[n];
    }
    CountOfSuffix(history, n, t => now - l.window <= t <= now - l.window + l.window);
  }

  lemma AppendKeepsInvariant(l: Limits, history: seq<int>, deque: seq<int>, now: int)
    requires DequeInvariant(l, now, history, deque) && |deque| < l.max
    ensures DequeInvariant(l, now, history + [now], deque + [now])
  {
    SpacedAppend(history, Quota(l), l.window + 1, now);
  }

  lemma AdmitAccepts(l: Limits, s: Tracker, c: Call)
    requires l.capacity > 0 && Aligned(s) && |s.order| <= l.capacity
    ensures Admit(l, s, c).1 <==> |Prune(DequeOf(s, c.who), c.now - l.window)| < l.max
  {
    AdmitDeques(l, s, c);
  }

  /** The deques after one call: only the caller's changes, and only others can be dropped. */
  lemma AdmitDeques(l: Limits, s: Tracker, c: Call)
    requires l.capacity > 0 && Aligned(s) && |s.order| <= l.capacity
    ensures var (s', accepted) := Admit(l, s, c);
            var kept := Prune(DequeOf(s, c.who), c.now - l.window);
            && (accepted <==> |kept| < l.max)
            && c.who in s'.times && s'.times[c.who] == (if accepted then kept + [c.now] else kept)
            && (forall k :: k in s'.times && k != c.who ==> k in s.times && s'.times[k] == s.times[k])
  {
    if c.who !in s.times {
      EvictDropsOne(s, l.capacity);
      assert Touch(s, c.who, l.capacity).times[c.who] == [];
    } else {
      assert Touch(s, c.who, l.capacity).times == s.times;
    }
  }

  lemma CallerKeepsInvariant(l: Limits, s: Tracker, c: Call, history: seq<int>)
    requires l.capacity > 0 && Aligned(s) && |s.order| <= l.capacity
    requires DequeInvariant(l, c.now, history, DequeOf(s, c.who))
    ensures DequeInvariant(l, c.now, Grown(l, s, c, c.who, history), DequeOf(Admit(l, s, c).0, c.who))
  {
    AdmitDeques(l, s, c);
    var kept := Prune(DequeOf(s, c.who), c.now - l.window);
    PruneKeepsInvariant(l, c.now, history, DequeOf(s, c.who), c.now);
    if |kept| < l.max {
      AppendKeepsInvariant(l, history, kept, c.now);
    }
  }

  lemma PrunedCount(l: Limits, history: seq<int>, deque: seq<int>, now: int)
    requires DequeInvariant(l, now, history, deque)
    ensures CountClosed(history, now - l.window, l.window) == |Prune(deque, now - l.window)|
  {
    PruneKeepsInvariant(l, now, history, deque, now);
    PrunedDequeIsWindow(l, history, Prune(deque, now - l.window), now);
  }

  lemma OthersKeepInvariant(l: Limits, s: Tracker, c: Call, k: Hotkey, history: seq<int>)
    requires l.capacity > 0 && Aligned(s) && |s.order| <= l.capacity && c.who != k
    requires DequeInvariant(l, c.now, history, DequeOf(s, k))
    ensures DequeInvariant(l, c.now, Grown(l, s, c, k, history), DequeOf(Admit(l, s, c).0, k))
  {
    AdmitDeques(l, s, c);
  }

  lemma TimePassesKeepsInvariant(l: Limits, before: int, now: int, history: seq<int>, deque: seq<int>)
    requires before <= now && DequeInvariant(l, before, history, deque)
    ensures DequeInvariant(l, now, history, deque)
  {
  }

  lemma {:induction false} RunKeepsInvariant(l: Limits, run: Run<Call>, k: Hotkey, now: int)
    requires l.capacity > 0 && ClockMonotone(run, now)
    ensures DequeInvariant(l, now, AcceptedWhileTracked(l, run, k), DequeOf(After(l, run), k))
  {
    match run
    case Start =>
    case Then(before, c) =>
      var s, history := After(l, before), AcceptedWhileTracked(l, before, k);
      OrderIsRecency(l, before);
      RunKeepsInvariant(l, before, k, c.now);
      if k == c.who {
        CallerKeepsInvariant(l, s, c, history);
      } else {
        OthersKeepInvariant(l, s, c, k, history);
      }
      TimePassesKeepsInvariant(l, c.now, now, Grown(l, s, c, k, history), DequeOf(After(l, run), k));
  }

  /**
   While a hotkey stays tracked, any closed window of the configured length holds at
   most the configured number of its accepted calls; and its deque, which is in order,
   is never longer than that.
   */
  lemma WindowBound(l: Limits, run: Run<Call>, now: int, k: Hotkey, start: int)
    requires l.capacity > 0 && ClockMonotone(run, now)
    ensures CountClosed(AcceptedWhileTracked(l, run, k), start, l.window) <= Quota(l)
    ensures Sorted(DequeOf(After(l, run), k)) && |DequeOf(After(l, run), k)| <= Quota(l)
  {
    RunKeepsInvariant(l, run, k, now);
    SpacedBoundsClosed(AcceptedWhileTracked(l, run, k), Quota(l), l.window, start);
  }

  lemma WindowCount(l: Limits, run: Run<Call>, k: Hotkey, now: int)
    requires l.capacity > 0 && ClockMonotone(run, now)
    ensures CountClosed(AcceptedWhileTracked(l, run, k), now - l.window, l.window)
         == |Prune(DequeOf(After(l, run), k), now - l.window)|
  {
    RunKeepsInvariant(l, run, k, now);
    PrunedCount(l, AcceptedWhileTracked(l, run, k), DequeOf(After(l, run), k), now);
  }

  lemma RunAccepts(l: Limits, run: Run<Call>, c: Call)
    requires l.capacity > 0
    ensures Accepts(l, run, c) <==> |Prune(DequeOf(After(l, run), c.who), c.now - l.window)| < l.max
  {
    OrderIsRecency(l, run);
    AdmitAccepts(l, After(l, run), c);
  }

  /** A call is turned away exactly when the closed window that ends with it is already full. */
  lemma AcceptedIffWindowHasRoom(l: Limits, run: Run<Call>, c: Call)
    requires l.capacity > 0 && ClockMonotone(run, c.now)
    ensures Accepts(l, run, c) <==>
            CountClosed(AcceptedWhileTracked(l, run, c.who), c.now - l.window, l.window) < l.max
  {
    hide *;
    RunAccepts(l, run, c);
    WindowCount(l, run, c.who, c.now);
  }

  // ------------------------------------------------- few callers are never forgotten

  lemma {:induction false} LaterCallersAreOthers(run: Run<Call>, k: Hotkey)
    ensures CallersSince(run, k) <= Callers(run) - {k}
  {
    if run.Then? {
      LaterCallersAreOthers(run.before, k);
    }
  }

  lemma {:induction false} FewCallersLoseNothing(l: Limits, run: Run<Call>, k: Hotkey)
    requires |Callers(run)| <= l.capacity && l.capacity > 0
    ensures AllAccepted(l, run, k) == AcceptedWhileTracked(l, run, k)
  {
    if run.Then? {
      SubsetIsSmaller(Callers(run.before), Callers(run));
      FewCallersLoseNothing(l, run.before, k);
      LaterCallersAreOthers(run, k);
      SubsetIsSmaller(CallersSince(run, k), Callers(run) - {k});
      ForgottenOnlyAfterCapacityOthers(l, run, k);
      if k !in Callers(run) {
        NeverCalledNeverAccepted(l, run, k);
      }
    }
  }

  lemma {:induction false} NeverCalledNeverAccepted(l: Limits, run: Run<Call>, k: Hotkey)
    requires l.capacity > 0 && k !in Callers(run)
    ensures AllAccepted(l, run, k) == []
  {
    if run.Then? {
      NeverCalledNeverAccepted(l, run.before, k);
    }
  }

  /** With no more callers than the limiter tracks, the window bound covers every accepted call. */
  lemma WindowBoundUnconditional(l: Limits, run: Run<Call>, now: int, k: Hotkey, start: int)
    requires ClockMonotone(run, now) && |Callers(run)| <= l.capacity && l.capacity > 0
    ensures CountClosed(AllAccepted(l, run, k), start, l.window) <= Quota(l)
  {
    FewCallersLoseNothing(l, run, k);
    WindowBound(l, run, now, k, start);
  }

  /**
   Beyond that the bound is lost: once `capacity` others have called, a hotkey is let
   through again however many of its calls the window already holds.
   */
  lemma ForgottenStartsAfresh(l: Limits, run: Run<Call>, c: Call)
    requires 0 < l.capacity <= |CallersSince(run, c.who)| && l.max > 0
    ensures Accepts(l, run, c)
  {
    ForgottenOnlyAfterCapacityOthers(l, run, c.who);
    RunAccepts(l, run, c);
  }

  /** The run followed by one call of each of these hotkeys at the same instant. */
  function Visited(run: Run<Call>, others: seq<Hotkey>): Run<Call> {
    if others == [] then run else Then(Visited(run, others[..|others| - 1]), Call(others[|others| - 1], 0))
  }

  lemma AcceptedStep(l: Limits, run: Run<Call>, c: Call)
    requires l.capacity > 0 && Accepts(l, run, c)
    ensures AllAccepted(l, Then(run, c), c.who) == AllAccepted(l, run, c.who) + [c.now]
  {
  }

  predicate AllZero(ts: seq<int>) {
    forall i :: 0 <= i < |ts| ==> ts[i] == 0
  }

  /** What a run of `n` accepted calls of one hotkey at the same instant is like. */
  predicate OnlyCalls(l: Limits, run: Run<Call>, k: Hotkey, n: nat)
    requires l.capacity > 0
  {
    && ClockMonotone(run, 0) && Callers(run) <= {k} && CallersSince(run, k) == {}
    && |AllAccepted(l, run, k)| == n && AllZero(AllAccepted(l, run, k))
  }

  lemma OnlyCallsStep(l: Limits, before: Run<Call>, k: Hotkey, n: nat)
    requires l.capacity > 0 && n < l.max && OnlyCalls(l, before, k, n)
    ensures OnlyCalls(l, Then(before, Call(k, 0)), k, n + 1)
  {
    RoomForMore(l, before, k);
    AcceptedStep(l, before, Call(k, 0));
    ZeroAppend(AllAccepted(l, before, k));
    hide Accepts, AllZero, AllAccepted;
    assert OnlyCalls(l, Then(before, Call(k, 0)), k, n + 1);
  }

  lemma {:induction false} FilledQuota(l: Limits, k: Hotkey, n: nat) returns (run: Run<Call>)
    requires l.capacity > 0 && n <= l.max && l.window >= 0
    ensures OnlyCalls(l, run, k, n)
  {
    if n == 0 {
      run := Start;
    } else {
      hide *;
      var before := FilledQuota(l, k, n - 1);
      OnlyCallsStep(l, before, k, n - 1);
      run := Then(before, Call(k, 0));
    }
  }

  lemma ZeroAppend(ts: seq<int>)
    requires AllZero(ts)
    ensures AllZero(ts + [0])
  {
  }

  lemma RoomForMore(l: Limits, run: Run<Call>, k: Hotkey)
    requires l.capacity > 0 && ClockMonotone(run, 0) && Callers(run) <= {k} && |AllAccepted(l, run, k)| < l.max
    ensures Accepts(l, run, Call(k, 0))
  {
    hide *;
    SubsetIsSmaller(Callers(run), {k});
    FewCallersLoseNothing(l, run, k);
    AcceptedIffWindowHasRoom(l, run, Call(k, 0));
    CountIsAtMost(AllAccepted(l, run, k), 0 - l.window, l.window);
  }

  lemma CountIsAtMost(ts: seq<int>, start: int, length: int)
    ensures CountClosed(ts, start, length) <= |ts|
  {
  }

  lemma {:induction false} VisitedFacts(l: Limits, run: Run<Call>, others: seq<Hotkey>, k: Hotkey)
    requires l.capacity > 0 && ClockMonotone(run, 0) && k !in others
    ensures var visited := Visited(run, others);
            && ClockMonotone(visited, 0)
            && AllAccepted(l, visited, k) == AllAccepted(l, run, k)
            && CallersSince(visited, k) == CallersSince(run, k) + Elements(others)
            && Callers(visited) == Callers(run) + Elements(others)
  {
    if others != [] {
      hide Accepts;
      var front, last := others[..|others| - 1], others[|others| - 1];
      assert others == front + [last];
      VisitedFacts(l, run, front, k);
      assert Elements(others) == Elements(front) + {last};
    }
  }

  /** As many distinct members of a set as asked for. */
  lemma {:induction false} SomeMembers(s: set<Hotkey>, n: nat) returns (members: seq<Hotkey>)
    requires n <= |s|
    ensures Elements(members) <= s && |Elements(members)| == n
  {
    if n == 0 {
      members := [];
    } else {
      var x :| x in s;
      var before := SomeMembers(s - {x}, n - 1);
      members := before + [x];
      assert Elements(members) == Elements(before) + {x};
    }
  }

  /** A hotkey that fills its quota, is forgotten, and calls once more: its window then holds one call too many. */
  lemma QuotaExceeded(l: Limits, k: Hotkey, others: seq<Hotkey>) returns (run: Run<Call>)
    requires l.max > 0 && l.window >= 0 && k !in others && |Elements(others)| == l.capacity > 0
    ensures ClockMonotone(run, 0) && Callers(run) <= Elements(others) + {k}
    ensures CountClosed(AllAccepted(l, run, k), 0, l.window) == Quota(l) + 1
  {
    var full := FilledQuota(l, k, l.max);
    var forgotten := Visited(full, others);
    VisitedFacts(l, full, others, k);
    run := Then(forgotten, Call(k, 0));
    OneTooMany(l, full, forgotten, k);
  }

  lemma OneTooMany(l: Limits, full: Run<Call>, forgotten: Run<Call>, k: Hotkey)
    requires l.max > 0 && l.window >= 0 && l.capacity > 0 && OnlyCalls(l, full, k, l.max)
    requires AllAccepted(l, forgotten, k) == AllAccepted(l, full, k)
    requires |CallersSince(forgotten, k)| >= l.capacity
    ensures CountClosed(AllAccepted(l, Then(forgotten, Call(k, 0)), k), 0, l.window) == Quota(l) + 1
  {
    hide Accepts, CountWhere;
    ForgottenStartsAfresh(l, forgotten, Call(k, 0));
    AcceptedStep(l, forgotten, Call(k, 0));
    ZeroAppend(AllAccepted(l, forgotten, k));
    AllCounted(AllAccepted(l, forgotten, k) + [0], t => 0 <= t <= 0 + l.window);
    hide AllAccepted;
    assert CountClosed(AllAccepted(l, Then(forgotten, Call(k, 0)), k), 0, l.window) == Quota(l) + 1;
  }

  ghost predicate BoundHolds(l: Limits, callers: set<Hotkey>)
    requires l.capacity > 0
  {
    forall run, now, k, start :: ClockMonotone(run, now) && Callers(run) <= callers ==>
      CountClosed(AllAccepted(l, run, k), start, l.window) <= Quota(l)
  }

  /**
   The window bound covers all accepted calls of every run by these callers exactly when
   there are no more of them than the limiter tracks.
   */
  lemma BoundHoldsIff(l: Limits, callers: set<Hotkey>)
    requires l.max > 0 && l.window >= 0 && l.capacity > 0
    ensures BoundHolds(l, callers) <==> |callers| <= l.capacity
  {
    hide AllAccepted, CountClosed;
    if |callers| <= l.capacity {
      forall run, now, k, start | ClockMonotone(run, now) && Callers(run) <= callers
        ensures CountClosed(AllAccepted(l, run, k), start, l.window) <= Quota(l)
      {
        SubsetIsSmaller(Callers(run), callers);
        WindowBoundUnconditional(l, run, now, k, start);
      }
    } else {
      var k :| k in callers;
      var others := SomeMembers(callers - {k}, l.capacity);
      assert k !in others by {
        assert k in others ==> k in Elements(others);
      }
      var run := QuotaExceeded(l, k, others);
      assert CountClosed(AllAccepted(l, run, k), 0, l.window) > Quota(l);
    }
  }

  // ------------------------------------------------------------ the limiter itself

  datatype Verdict = Allowed | Unregistered | NotValidator | RateLimited

  function IndexOf(ks: seq<Hotkey>, k: Hotkey): (i: nat)
    requires k in ks
    ensures i < |ks| && ks[i] == k && k !in ks[..i]
  {
    if ks[0] == k then 0 else 1 + IndexOf(ks[1..], k)
  }

  class RequestLimiter {
    const limits: Limits
    var order: seq<Hotkey>
    var times: map<Hotkey, seq<int>>
    ghost var calls: Run<Call>  // the calls that got as far as the rate limit

    function State(): Tracker
      reads this
    {
      Tracker(order, times)
    }

    ghost predicate Valid()
      reads this
    {
      limits.capacity > 0 && State() == After(limits, calls)
    }

    constructor (limits: Limits)
      requires limits.capacity > 0
      ensures Valid() && this.limits == limits && calls == Start
    {
      this.limits := limits;
      order, times, calls := [], map[], Start;
    }

    /** Decide on one call; only a registered validator's call reaches and changes the tracker. */
    method Blacklist(caller: Hotkey, hotkeys: seq<Hotkey>, permits: seq<bool>, now: int) returns (verdict: Verdict)
      requires Valid() && |permits| == |hotkeys|
      modifies this
      ensures Valid()
      ensures verdict == Unregistered <==> caller !in hotkeys
      ensures verdict == NotValidator <==> caller in hotkeys && !permits[IndexOf(hotkeys, caller)]
      ensures verdict in {Unregistered, NotValidator} ==> State() == old(State()) && calls == old(calls)
      ensures verdict !in {Unregistered, NotValidator} ==>
                && calls == Then(old(calls), Call(caller, now))
                && (verdict == Allowed <==> Accepts(limits, old(calls), Call(caller, now)))
    {
      if caller !in hotkeys {
        return Unregistered;
      }
      if !permits[IndexOf(hotkeys, caller)] {
        return NotValidator;
      }
      var allowed := Limit(Call(caller, now));
      calls := Then(calls, Call(caller, now));
      return if allowed then Allowed else RateLimited;
    }

    /** The rate limit proper. */
    method Limit(c: Call) returns (allowed: bool)
      requires limits.capacity > 0
      modifies this`order, this`times
      ensures (State(), allowed) == Admit(limits, old(State()), c)
    {
      hide Prune, Touch;
      Track(c.who);
      var entries := Expire(times[c.who], c.now - limits.window);
      allowed := |entries| < limits.max;
      times := times[c.who := if allowed then entries + [c.now] else entries];
    }

    /** Make a hotkey the most recently used, dropping the oldest ones to make room for a new one. */
    method Track(k: Hotkey)
      requires limits.capacity > 0
      modifies this`order, this`times
      ensures State() == Touch(old(State()), k, limits.capacity)
    {
      if k in times {
        order := Without(order, k) + [k];
        return;
      }
      while |order| >= limits.capacity
        invariant Evict(State(), limits.capacity) == Evict(old(State()), limits.capacity)
        invariant k !in times
      {
        times := times - {order[0]};
        order := order[1..];
      }
      times := times[k := []];
      order := order + [k];
    }

    method Expire(times: seq<int>, cutoff: int) returns (kept: seq<int>)
      ensures kept == Prune(times, cutoff)
    {
      kept := times;
      while kept != [] && kept[0] < cutoff
        invariant Prune(kept, cutoff) == Prune(times, cutoff)
      {
        kept := kept[1..];
      }
    }
  }
}
