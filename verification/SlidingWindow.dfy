/**
 How many entries of a list of instants can fall in a window of time.

 The rate limiter, both circuit breakers and the login lockout promise a bound of
 this kind; each keeps its log of instants spaced, and the lemmas below turn the
 spacing into the bound.  Instants are whole clock ticks.
 */
module SlidingWindow {

  /** Number of entries of `ts` that satisfy `p`. */
  function CountWhere(ts: seq<int>, p: int -> bool): (n: nat)
    ensures n <= |ts|
  {
    if ts == [] then 0 else (if p(ts[0]) then 1 else 0) + CountWhere(ts[1..], p)
  }

  /** Entries in the half-open window that starts at `start`. */
  function CountHalfOpen(ts: seq<int>, start: int, length: int): nat {
    CountWhere(ts, t => start <= t < start + length)
  }

  /** Entries in the closed window that starts at `start`. */
  function CountClosed(ts: seq<int>, start: int, length: int): nat {
    CountWhere(ts, t => start <= t <= start + length)
  }

  predicate Sorted(ts: seq<int>) {
    forall i, j :: 0 <= i <= j < |ts| ==> ts[i] <= ts[j]
  }

  predicate SortedUpTo(ts: seq<int>, now: int) {
    Sorted(ts) && forall i :: 0 <= i < |ts| ==> ts[i] <= now
  }

  /** Entries at least `m` places apart differ by at least `gap`. */
  predicate Spaced(ts: seq<int>, m: nat, gap: int) {
    forall i, j :: 0 <= i && i + m <= j < |ts| ==> ts[i] + gap <= ts[j]
  }

  lemma {:induction false} CountHalfOpenAppend(ts: seq<int>, t: int, start: int, length: int)
    ensures CountHalfOpen(ts + [t], start, length)
         == CountHalfOpen(ts, start, length) + if start <= t < start + length then 1 else 0
  {
    CountConcat(ts, [t], x => start <= x < start + length);
  }

  lemma {:induction false} NoneCounted(ts: seq<int>, p: int -> bool)
    requires forall i :: 0 <= i < |ts| ==> !p(ts[i])
    ensures CountWhere(ts, p) == 0
  {
    if ts != [] {
      NoneCounted(ts[1..], p);
    }
  }

  lemma {:induction false} CountPrefix(ts: seq<int>, p: int -> bool, m: nat)
    requires forall j :: m <= j < |ts| ==> !p(ts[j])
    ensures CountWhere(ts, p) <= m
  {
    if m == 0 {
      NoneCounted(ts, p);
    } else if ts != [] {
      CountPrefix(ts[1..], p, m - 1);
    }
  }

  /** If no entry is counted together with one `m` or more places later, at most `m` are counted. */
  lemma {:induction false} CountSparse(ts: seq<int>, p: int -> bool, m: nat)
    requires forall i, j :: 0 <= i && i + m <= j < |ts| && p(ts[i]) ==> !p(ts[j])
    ensures CountWhere(ts, p) <= m
  {
    if ts != [] {
      if p(ts[0]) {
        CountPrefix(ts, p, m);
      } else {
        CountSparse(ts[1..], p, m);
      }
    }
  }

  lemma SpacedBoundsHalfOpen(ts: seq<int>, m: nat, gap: int, start: int)
    requires Spaced(ts, m, gap)
    ensures CountHalfOpen(ts, start, gap) <= m
  {
    CountSparse(ts, t => start <= t < start + gap, m);
  }

  lemma SpacedBoundsClosed(ts: seq<int>, m: nat, length: int, start: int)
    requires Spaced(ts, m, length + 1)
    ensures CountClosed(ts, start, length) <= m
  {
    CountSparse(ts, t => start <= t <= start + length, m);
  }

  /** A spaced list stays spaced when a new instant keeps its distance from the entry `m` places back. */
  lemma SpacedAppend(ts: seq<int>, m: nat, gap: int, t: int)
    requires Spaced(ts, m, gap)
    requires forall i :: 0 <= i && i + m <= |ts| && i < |ts| ==> ts[i] + gap <= t
    requires m == 0 ==> gap <= 0
    ensures Spaced(ts + [t], m, gap)
  {
  }

  lemma {:induction false} AllCounted(ts: seq<int>, p: int -> bool)
    requires forall i :: 0 <= i < |ts| ==> p(ts[i])
    ensures CountWhere(ts, p) == |ts|
  {
    if ts != [] {
      AllCounted(ts[1..], p);
    }
  }

  lemma {:induction false} CountConcat(a: seq<int>, b: seq<int>, p: int -> bool)
    ensures CountWhere(a + b, p) == CountWhere(a, p) + CountWhere(b, p)
  {
    if a == [] {
      assert a + b == b;
    } else {
      CountConcat(a[1..], b, p);
      assert (a + b)[1..] == a[1..] + b;
    }
  }

  /** When exactly the entries from place `n` on are counted, the count is their number. */
  lemma CountOfSuffix(ts: seq<int>, n: nat, p: int -> bool)
    requires n <= |ts|
    requires forall i :: 0 <= i < |ts| ==> (p(ts[i]) <==> n <= i)
    ensures CountWhere(ts, p) == |ts| - n
  {
    CountConcat(ts[..n], ts[n..], p);
    NoneCounted(ts[..n], p);
    AllCounted(ts[n..], p);
    assert ts == ts[..n] + ts[n..];
  }
}
