/**
 The failed-login counter and account lock (api/routes/auth_routes.py, `login`), for the
 attempts on one account one after the other.  "Accepted" means the password check
 passed, whether or not a second factor is still to come.
 */
module LoginLockout {
  import opened Outcomes
  import opened Runs
  import opened SlidingWindow

  datatype Policy = Policy(maxFailed: int, lockout: int)

  datatype Account = Account(failed: nat, lockedUntil: Option<int>)

  const NEW_ACCOUNT := Account(0, None)

  /** An attempt: when the lock is checked, whether the credentials are good, and when a failure is recorded. */
  datatype Attempt = Attempt(at: int, correct: bool, recordedAt: int)

  datatype Verdict = Refused | Accepted | Rejected

  predicate Locked(a: Account, now: int) {
    a.lockedUntil.Some? && now < a.lockedUntil.value
  }

  function VerdictOn(a: Account, t: Attempt): Verdict {
    if Locked(a, t.at) then Refused else if t.correct then Accepted else Rejected
  }

  function Attempted(p: Policy, a: Account, t: Attempt): Account {
    match VerdictOn(a, t)
    case Refused => a
    case Accepted => NEW_ACCOUNT
    case Rejected =>
      Account(a.failed + 1,
              if a.failed + 1 >= p.maxFailed then Some(t.recordedAt + p.lockout) else a.lockedUntil)
  }

  function After(p: Policy, run: Run<Attempt>): Account {
    match run
    case Start => NEW_ACCOUNT
    case Then(before, t) => Attempted(p, After(p, before), t)
  }

  predicate Sequential(run: Run<Attempt>, now: int) {
    run.Then? ==> run.last.at <= run.last.recordedAt <= now && Sequential(run.before, run.last.at)
  }

  /** The instants of the rejected attempts since the last accepted one. */
  function Failures(p: Policy, run: Run<Attempt>): seq<int> {
    match run
    case Start => []
    case Then(before, t) =>
      if VerdictOn(After(p, before), t) == Refused then Failures(p, before)
      else if t.correct then []
      else Failures(p, before) + [t.recordedAt]
  }

  /** The number of failures that locks the account; a setting below one still takes one failure. */
  function Tolerated(p: Policy): nat {
    if p.maxFailed >= 1 then p.maxFailed else 1
  }

  ghost predicate Invariant(p: Policy, a: Account, fails: seq<int>, now: int) {
    && a.failed == |fails|
    && a.lockedUntil == (if |fails| >= Tolerated(p) then Some(fails[|fails| - 1] + p.lockout) else None)
    && SortedUpTo(fails, now)
    && Spaced(fails, Tolerated(p), p.lockout)
  }

  lemma {:induction false} RunKeepsInvariant(p: Policy, run: Run<Attempt>, now: int)
    requires Sequential(run, now)
    ensures Invariant(p, After(p, run), Failures(p, run), now)
  {
    match run
    case Start =>
    case Then(before, t) =>
      var a, fails := After(p, before), Failures(p, before);
      RunKeepsInvariant(p, before, t.at);
      if VerdictOn(a, t) == Rejected {
        RejectedKeepsInvariant(p, a, fails, t);
        InvariantLater(p, After(p, run), Failures(p, run), t.recordedAt, now);
      } else {
        InvariantLater(p, a, fails, t.at, now);
      }
  }

  lemma RejectedKeepsInvariant(p: Policy, a: Account, fails: seq<int>, t: Attempt)
    requires Invariant(p, a, fails, t.at) && t.at <= t.recordedAt && VerdictOn(a, t) == Rejected
    ensures Invariant(p, Attempted(p, a, t), fails + [t.recordedAt], t.recordedAt)
  {
    SpacedAppend(fails, Tolerated(p), p.lockout, t.recordedAt);
  }

  lemma InvariantLater(p: Policy, a: Account, fails: seq<int>, now: int, now': int)
    requires Invariant(p, a, fails, now) && now <= now'
    ensures Invariant(p, a, fails, now')
  {
  }

  /**
   Between accepted logins, any half-open window of the lockout length holds at most the
   tolerated number of evaluated failures.
   */
  lemma FailureWindowBound(p: Policy, run: Run<Attempt>, now: int, start: int)
    requires Sequential(run, now)
    ensures CountHalfOpen(Failures(p, run), start, p.lockout) <= Tolerated(p)
  {
    RunKeepsInvariant(p, run, now);
    SpacedBoundsHalfOpen(Failures(p, run), Tolerated(p), p.lockout, start);
  }

  /**
   An attempt is refused exactly when enough failures have been recorded since the last
   accepted login and the newest is less than the lockout old; a refused attempt changes
   nothing, so it does not prolong the lock.
   */
  lemma RefusedIffRecentFailures(p: Policy, run: Run<Attempt>, t: Attempt)
    requires Sequential(run, t.at)
    ensures VerdictOn(After(p, run), t) == Refused <==>
            var fails := Failures(p, run);
            |fails| >= Tolerated(p) && t.at < fails[|fails| - 1] + p.lockout
    ensures VerdictOn(After(p, run), t) == Refused ==> After(p, Then(run, t)) == After(p, run)
    ensures VerdictOn(After(p, run), t) == Accepted <==> VerdictOn(After(p, run), t) != Refused && t.correct
  {
    RunKeepsInvariant(p, run, t.at);
  }

  /** After a lock expires the counter is still full: the next failure locks the account again at once. */
  lemma OneFailureLocksAgain(p: Policy, run: Run<Attempt>, t: Attempt, next: int)
    requires Sequential(run, t.at) && t.at <= t.recordedAt <= next < t.recordedAt + p.lockout
    requires |Failures(p, run)| >= Tolerated(p) && !t.correct && VerdictOn(After(p, run), t) != Refused
    ensures Locked(After(p, Then(run, t)), next)
  {
    RunKeepsInvariant(p, run, t.at);
  }

  class UserAccount {
    const policy: Policy
    var failedLoginAttempts: nat
    var lockedUntil: Option<int>

    function State(): Account
      reads this
    {
      Account(failedLoginAttempts, lockedUntil)
    }

    constructor (policy: Policy)
      ensures State() == NEW_ACCOUNT && this.policy == policy
    {
      this.policy := policy;
      failedLoginAttempts, lockedUntil := 0, None;
    }

    method Login(t: Attempt) returns (verdict: Verdict)
      modifies this
      ensures verdict == VerdictOn(old(State()), t)
      ensures State() == Attempted(policy, old(State()), t)
    {
      if lockedUntil.Some? && t.at < lockedUntil.value {
        return Refused;
      }
      if !t.correct {
        failedLoginAttempts := failedLoginAttempts + 1;
        if failedLoginAttempts >= policy.maxFailed {
          lockedUntil := Some(t.recordedAt + policy.lockout);
        }
        return Rejected;
      }
      failedLoginAttempts, lockedUntil := 0, None;
      return Accepted;
    }
  }
}
