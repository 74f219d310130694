/**
 How long tokens are accepted: exactly when each kind of token is good, told from the
 events since it was issued (api/auth.py, api/deps.py and the token routes).
 */
module TokenLiveness {
  import opened Outcomes
  import opened Runs
  import opened TokenLifecycle

  // ---------------------------------------------------------------- what is issued

  /** Requests that hand out an access and a refresh token. */
  predicate OpensSession(r: Request) {
    (r.Login? && !r.secondFactor) || r.CompleteLogin? || r.Refresh?
  }

  /** Whom the tokens are for. */
  predicate SessionFor(s: Store, r: Request, u: UserId) {
    match r
    case Login(user, _) => u == user
    case CompleteLogin(t, _) => t in s.issued && u == s.issued[t].user
    case Refresh(t) => t in s.refresh && u == s.refresh[t].user
    case _ => false
  }

  predicate NeverGivenOut(s: Store, t: TokenId) {
    t !in s.issued && t !in s.refresh && t !in s.resets && t !in s.revoked && t >= s.nextId
  }

  lemma SessionIsOpened(l: Lifetimes, s: Store, e: Event, u: UserId) returns (a: TokenId, r: TokenId)
    requires Consistent(s) && Grants(s, e) && OpensSession(e.request) && SessionFor(s, e.request, u)
    ensures NeverGivenOut(s, a) && NeverGivenOut(s, r)
    ensures var q := Serve(l, s, e);
            && a in q.issued && q.issued[a] == Access(u, e.now + l.access, false) && a !in q.revoked
            && r in q.refresh && q.refresh[r] == Row(u, e.now + l.refresh)
            && a < q.nextId && r < q.nextId && q.users == s.users
  {
    a, r := s.nextId, s.nextId + 1;
  }

  lemma PendingIsIssued(l: Lifetimes, s: Store, e: Event) returns (a: TokenId)
    requires Consistent(s) && Grants(s, e) && e.request.Login? && e.request.secondFactor
    ensures NeverGivenOut(s, a)
    ensures var q := Serve(l, s, e);
            && a in q.issued && q.issued[a] == Access(e.request.user, e.now + l.pending, true) && a < q.nextId
            && q.users == s.users
  {
    a := s.nextId;
  }

  lemma ResetIsIssued(l: Lifetimes, s: Store, e: Event) returns (t: TokenId)
    requires Consistent(s) && Grants(s, e) && e.request.ForgotPassword?
    ensures NeverGivenOut(s, t)
    ensures var q := Serve(l, s, e);
            && t in q.resets && q.resets[t] == Row(e.request.user, e.now + l.reset) && t < q.nextId
            && q.users == s.users
  {
    t := s.nextId;
  }

  // ---------------------------------------------------------------- refresh tokens

  /** A granted request that ends a user's refresh token: by using it, or for all of the user's. */
  predicate EndsRefresh(s: Store, e: Event, r: TokenId, u: UserId) {
    Grants(s, e) && (e.request == Refresh(r) || u in Revokes(s, e.request) || e.request == Purge(u))
  }

  /** No request since `base` ended the refresh token. */
  predicate Unended(l: Lifetimes, run: Run<Event>, base: Run<Event>, r: TokenId, u: UserId) {
    run == base
    || (run.Then? && Unended(l, run.before, base, r, u) && !EndsRefresh(After(l, run.before), run.last, r, u))
  }

  lemma RefreshRowStep(l: Lifetimes, s: Store, e: Event, r: TokenId)
    requires Consistent(s) && r < s.nextId
    ensures var q := Serve(l, s, e);
            && (r in q.refresh ==> r in s.refresh && q.refresh[r] == s.refresh[r]
                                   && !EndsRefresh(s, e, r, s.refresh[r].user))
            && (r in s.refresh && !EndsRefresh(s, e, r, s.refresh[r].user) && e.now <= s.refresh[r].expires ==>
                  r in q.refresh)
  {
    hide Consistent, Present;
    match e.request
    case Logout(c) =>
      hide WithoutUser;
      WithoutUserFacts(s.refresh, if Revokes(s, e.request) == {} then 0 else s.issued[Presented(c).value].user, r);
    case ChangePassword(_, _) =>
    case ResetPassword(_) =>
    case _ => hide Authenticates, Decodes;
  }

  lemma WithoutUserFacts(table: map<TokenId, Row>, u: UserId, r: TokenId)
    ensures r in WithoutUser(table, u) <==> r in table && table[r].user != u
    ensures r in WithoutUser(table, u) ==> WithoutUser(table, u)[r] == table[r]
  {
  }

  lemma {:induction false} RefreshTracked(
    l: Lifetimes, run: Run<Event>, base: Run<Event>, r: TokenId, row: Row, at: int, now: int)
    requires Extends(run, base, at) && ClockMonotone(run, now)
    requires r < After(l, base).nextId && r in After(l, base).refresh && After(l, base).refresh[r] == row
    ensures var s := After(l, run);
            && r < s.nextId
            && (r in s.refresh ==> s.refresh[r] == row && Unended(l, run, base, r, row.user))
            && (Unended(l, run, base, r, row.user) && now <= row.expires ==> r in s.refresh)
  {
    if run != base {
      hide Serve, Consistent, EndsRefresh;
      RefreshTracked(l, run.before, base, r, row, at, run.last.now);
      RunIsConsistent(l, run.before);
      RefreshRowStep(l, After(l, run.before), run.last, r);
      ServeKeepsConsistent(l, After(l, run.before), run.last);
    }
  }

  /**
   A login without second factor, its completion, and a refresh each hand out a refresh
   token that was never given out before.  In every continuation it is accepted if and only
   if it has not expired and no request since has used it, logged the user out, changed or
   reset the user's password, or purged the user.
   */
  lemma RefreshTokenIsAcceptedIff(l: Lifetimes, before: Run<Event>, e: Event, u: UserId) returns (r: TokenId)
    requires Grants(After(l, before), e) && OpensSession(e.request) && SessionFor(After(l, before), e.request, u)
    ensures NeverGivenOut(After(l, before), r)
    ensures forall run, now :: Extends(run, Then(before, e), e.now) && ClockMonotone(run, now) ==>
              (Grants(After(l, run), Event(now, Refresh(r)))
               <==> now <= e.now + l.refresh && Unended(l, run, Then(before, e), r, u))
  {
    RunIsConsistent(l, before);
    var a;
    hide Consistent, Serve;
    a, r := SessionIsOpened(l, After(l, before), e, u);
    var base := Then(before, e);
    assert After(l, base) == Serve(l, After(l, before), e);
    forall run, now | Extends(run, base, e.now) && ClockMonotone(run, now)
      ensures Grants(After(l, run), Event(now, Refresh(r)))
              <==> now <= e.now + l.refresh && Unended(l, run, base, r, u)
    {
      RefreshTracked(l, run, base, r, Row(u, e.now + l.refresh), e.now, now);
    }
  }

  // ---------------------------------------------------------------- users

  /** A user who can authenticate. */
  predicate Live(s: Store, u: UserId) {
    u in s.users && !s.users[u].deleted && s.users[u].active
  }

  /** Whether this request has been granted since `base`. */
  predicate HappenedSince(l: Lifetimes, run: Run<Event>, base: Run<Event>, r: Request) {
    run != base && run.Then?
    && (HappenedSince(l, run.before, base, r)
        || (run.last.request == r && Grants(After(l, run.before), run.last)))
  }

  lemma LiveStep(l: Lifetimes, s: Store, e: Event, u: UserId)
    requires u < s.nextId
    ensures Live(Serve(l, s, e), u) <==> Live(s, u) && !(e.request == Remove(u) && Grants(s, e))
    ensures Present(Serve(l, s, e), u) <==> Present(s, u) && !(e.request == Remove(u) && Grants(s, e))
  {
    hide Authenticates, WithoutUser, Unexpired, Valid;
  }

  lemma {:induction false} LiveTracked(l: Lifetimes, run: Run<Event>, base: Run<Event>, u: UserId, at: int)
    requires Extends(run, base, at) && u < After(l, base).nextId
    ensures u < After(l, run).nextId
    ensures Live(After(l, run), u) <==> Live(After(l, base), u) && !HappenedSince(l, run, base, Remove(u))
    ensures Present(After(l, run), u) <==> Present(After(l, base), u) && !HappenedSince(l, run, base, Remove(u))
  {
    if run != base {
      hide Serve, Live, Present, Grants;
      LiveTracked(l, run.before, base, u, at);
      LiveStep(l, After(l, run.before), run.last, u);
      ServeAddsFreshIds(l, After(l, run.before), run.last);
    }
  }

  // ---------------------------------------------------------------- access tokens

  /** In whose name the access token is revoked after an event; purging that user takes the revocation away. */
  function RevokerStep(s: Store, e: Event, a: TokenId, was: Option<UserId>): Option<UserId> {
    if !Grants(s, e) then was
    else if e.request.Logout? && Reread(e.request.credentials) == Some(a) then
      Some(s.issued[Presented(e.request.credentials).value].user)
    else if was.Some? && e.request == Purge(was.value) then None
    else was
  }

  /** In whose name it has been revoked since `base`. */
  function Revoker(l: Lifetimes, run: Run<Event>, base: Run<Event>, a: TokenId): Option<UserId> {
    if run == base || run.Start? then None
    else RevokerStep(After(l, run.before), run.last, a, Revoker(l, run.before, base, a))
  }

  /** The revocation table agrees with the events, but for a token that has expired. */
  ghost predicate RevokerIs(s: Store, a: TokenId, revoker: Option<UserId>, now: int) {
    && a in s.issued && a < s.nextId
    && (a in s.revoked ==> revoker.Some? && s.revoked[a] == Row(revoker.value, s.issued[a].expires))
    && (revoker.Some? && now <= s.issued[a].expires ==> a in s.revoked)
  }

  lemma LogoutRevokes(l: Lifetimes, s: Store, e: Event, a: TokenId, was: Option<UserId>)
    requires RevokerIs(s, a, was, e.now) && Grants(s, e) && e.request.Logout?
    ensures RevokerIs(Effect(l, s, e), a, RevokerStep(s, e, a, was), e.now)
  {
    hide WithoutUser, Authenticates;
  }

  lemma PurgeUnrevokes(l: Lifetimes, s: Store, e: Event, a: TokenId, was: Option<UserId>)
    requires RevokerIs(s, a, was, e.now) && Grants(s, e) && (e.request.Purge? || e.request.Cleanup?)
    ensures RevokerIs(Effect(l, s, e), a, RevokerStep(s, e, a, was), e.now)
  {
  }

  lemma OthersKeepRevoker(l: Lifetimes, s: Store, e: Event, a: TokenId, was: Option<UserId>)
    requires RevokerIs(s, a, was, e.now) && Grants(s, e)
    requires !e.request.Purge? && !e.request.Cleanup? && !e.request.Logout?
    ensures RevokerIs(Effect(l, s, e), a, RevokerStep(s, e, a, was), e.now)
  {
    hide WithoutUser, Authenticates, Decodes, Present, Valid;
  }

  lemma RevokerKept(l: Lifetimes, s: Store, e: Event, a: TokenId, was: Option<UserId>)
    requires RevokerIs(s, a, was, e.now)
    ensures RevokerIs(Serve(l, s, e), a, RevokerStep(s, e, a, was), e.now)
  {
    hide Grants, Effect, RevokerIs;
    if Grants(s, e) {
      if e.request.Logout? {
        LogoutRevokes(l, s, e, a, was);
      } else if e.request.Purge? || e.request.Cleanup? {
        PurgeUnrevokes(l, s, e, a, was);
      } else {
        OthersKeepRevoker(l, s, e, a, was);
      }
    }
  }

  lemma RevokerLater(s: Store, a: TokenId, revoker: Option<UserId>, now: int, later: int)
    requires RevokerIs(s, a, revoker, now) && now <= later
    ensures RevokerIs(s, a, revoker, later)
  {
  }

  lemma {:induction false} AccessTracked(
    l: Lifetimes, run: Run<Event>, base: Run<Event>, a: TokenId, acc: Access, at: int, now: int)
    requires Extends(run, base, at) && ClockMonotone(run, now)
    requires a < After(l, base).nextId && a in After(l, base).issued && After(l, base).issued[a] == acc
    requires a !in After(l, base).revoked
    ensures RevokerIs(After(l, run), a, Revoker(l, run, base, a), now)
    ensures a in After(l, run).issued && After(l, run).issued[a] == acc
  {
    if run != base {
      hide Serve, RevokerIs, RevokerStep;
      AccessTracked(l, run.before, base, a, acc, at, run.last.now);
      var s := After(l, run.before);
      RevokerKept(l, s, run.last, a, Revoker(l, run.before, base, a));
      RevokerLater(After(l, run), a, Revoker(l, run, base, a), run.last.now, now);
      ServeAddsFreshIds(l, s, run.last);
      IssuedIsKept(s, After(l, run), a, Revoker(l, run.before, base, a), run.last.now);
    }
  }

  lemma IssuedIsKept(s: Store, q: Store, a: TokenId, revoker: Option<UserId>, now: int)
    requires OnlyFreshIds(s, q) && RevokerIs(s, a, revoker, now)
    ensures a in q.issued && q.issued[a] == s.issued[a]
  {
  }

  /**
   They each hand out an access token too.  In every continuation it authenticates if and
   only if it has not expired, no logout since has revoked it (other than in the name of a
   user purged in the meantime), and its user, who could authenticate then, has not been
   removed.
   */
  lemma AccessTokenAuthenticatesIff(l: Lifetimes, before: Run<Event>, e: Event, u: UserId) returns (a: TokenId)
    requires Grants(After(l, before), e) && OpensSession(e.request) && SessionFor(After(l, before), e.request, u)
    ensures NeverGivenOut(After(l, before), a)
    ensures forall run, now :: Extends(run, Then(before, e), e.now) && ClockMonotone(run, now) ==>
              (Authenticates(After(l, run), a, now)
               <==> && now < e.now + l.access
                    && Revoker(l, run, Then(before, e), a) == None
                    && Live(After(l, before), u) && !HappenedSince(l, run, Then(before, e), Remove(u)))
  {
    RunIsConsistent(l, before);
    UserIsKnown(After(l, before), e, u);
    var r;
    hide Consistent, Serve;
    a, r := SessionIsOpened(l, After(l, before), e, u);
    var base := Then(before, e);
    assert After(l, base) == Serve(l, After(l, before), e);
    ServeAddsFreshIds(l, After(l, before), e);
    forall run, now | Extends(run, base, e.now) && ClockMonotone(run, now)
      ensures Authenticates(After(l, run), a, now)
              <==> && now < e.now + l.access && Revoker(l, run, base, a) == None
                   && Live(After(l, before), u) && !HappenedSince(l, run, base, Remove(u))
    {
      AccessTracked(l, run, base, a, Access(u, e.now + l.access, false), e.now, now);
      LiveTracked(l, run, base, u, e.now);
    }
  }

  lemma UserIsKnown(s: Store, e: Event, u: UserId)
    requires Consistent(s) && Grants(s, e) && OpensSession(e.request) && SessionFor(s, e.request, u)
    ensures u < s.nextId
  {
  }

  // ---------------------------------------------------------------- second factor and password reset

  /**
   A login that needs a second factor hands out a token which no continuation accepts as an
   access token.  With a right code it completes the login, as often as that is asked for,
   if and only if it has not expired and the user has not been removed.
   */
  lemma PendingTokenCompletesIff(l: Lifetimes, before: Run<Event>, e: Event) returns (a: TokenId)
    requires Grants(After(l, before), e) && e.request.Login? && e.request.secondFactor
    ensures NeverGivenOut(After(l, before), a)
    ensures forall run, now :: Extends(run, Then(before, e), e.now) ==> !Authenticates(After(l, run), a, now)
    ensures forall run, now :: Extends(run, Then(before, e), e.now) ==>
              (Grants(After(l, run), Event(now, CompleteLogin(a, true)))
               <==> now < e.now + l.pending && !HappenedSince(l, run, Then(before, e), Remove(e.request.user)))
  {
    var u, base := e.request.user, Then(before, e);
    RunIsConsistent(l, before);
    assert u < After(l, before).nextId;
    hide Consistent, Serve;
    a := PendingIsIssued(l, After(l, before), e);
    assert After(l, base) == Serve(l, After(l, before), e);
    ServeAddsFreshIds(l, After(l, before), e);
    forall run, now | Extends(run, base, e.now) ensures !Authenticates(After(l, run), a, now) {
      IssuedStays(l, run, base, a, e.now);
    }
    forall run, now | Extends(run, base, e.now)
      ensures Grants(After(l, run), Event(now, CompleteLogin(a, true)))
              <==> now < e.now + l.pending && !HappenedSince(l, run, base, Remove(u))
    {
      LiveTracked(l, run, base, u, e.now);
      IssuedStays(l, run, base, a, e.now);
    }
  }

  lemma {:induction false} IssuedStays(l: Lifetimes, run: Run<Event>, base: Run<Event>, a: TokenId, at: int)
    requires Extends(run, base, at) && a in After(l, base).issued && a < After(l, base).nextId
    ensures a < After(l, run).nextId && a in After(l, run).issued
    ensures After(l, run).issued[a] == After(l, base).issued[a]
  {
    if run != base {
      hide Serve;
      IssuedStays(l, run.before, base, a, at);
      ServeAddsFreshIds(l, After(l, run.before), run.last);
    }
  }

  lemma ResetRowStep(l: Lifetimes, s: Store, e: Event, t: TokenId)
    requires Consistent(s) && t < s.nextId
    ensures var q := Serve(l, s, e);
            && (t in q.resets ==> t in s.resets && q.resets[t] == s.resets[t]
                                  && !(Grants(s, e) && e.request == ResetPassword(t)))
            && (t in s.resets && !(Grants(s, e) && e.request == ResetPassword(t)) ==>
                  e.now <= s.resets[t].expires && Present(s, s.resets[t].user) ==> t in q.resets)
  {
    hide Consistent, Authenticates, Decodes;
  }

  lemma {:induction false} ResetTracked(
    l: Lifetimes, run: Run<Event>, base: Run<Event>, t: TokenId, row: Row, at: int, now: int)
    requires Extends(run, base, at) && ClockMonotone(run, now) && row.user < After(l, base).nextId
    requires t < After(l, base).nextId && t in After(l, base).resets && After(l, base).resets[t] == row
    ensures var s := After(l, run);
            && t < s.nextId
            && (t in s.resets ==> s.resets[t] == row && !HappenedSince(l, run, base, ResetPassword(t)))
            && (!HappenedSince(l, run, base, ResetPassword(t)) && Present(s, row.user) && now <= row.expires ==>
                  t in s.resets)
  {
    if run != base {
      hide Serve, Consistent, Grants, Present;
      ResetTracked(l, run.before, base, t, row, at, run.last.now);
      RunIsConsistent(l, run.before);
      ResetRowStep(l, After(l, run.before), run.last, t);
      LiveTracked(l, run.before, base, row.user, at);
      LiveStep(l, After(l, run.before), run.last, row.user);
      ServeKeepsConsistent(l, After(l, run.before), run.last);
    }
  }

  /**
   Asking for a password reset hands out a token that was never given out before.  In every
   continuation it is accepted if and only if it has not expired or been used, and the user
   has not been removed.
   */
  lemma ResetTokenIsAcceptedIff(l: Lifetimes, before: Run<Event>, e: Event) returns (t: TokenId)
    requires Grants(After(l, before), e) && e.request.ForgotPassword?
    ensures NeverGivenOut(After(l, before), t)
    ensures forall run, now :: Extends(run, Then(before, e), e.now) && ClockMonotone(run, now) ==>
              (Grants(After(l, run), Event(now, ResetPassword(t)))
               <==> && now <= e.now + l.reset
                    && !HappenedSince(l, run, Then(before, e), ResetPassword(t))
                    && !HappenedSince(l, run, Then(before, e), Remove(e.request.user)))
  {
    var u, base := e.request.user, Then(before, e);
    RunIsConsistent(l, before);
    assert u < After(l, before).nextId;
    hide Consistent, Serve;
    t := ResetIsIssued(l, After(l, before), e);
    assert After(l, base) == Serve(l, After(l, before), e);
    ServeAddsFreshIds(l, After(l, before), e);
    forall run, now | Extends(run, base, e.now) && ClockMonotone(run, now)
      ensures Grants(After(l, run), Event(now, ResetPassword(t)))
              <==> && now <= e.now + l.reset && !HappenedSince(l, run, base, ResetPassword(t))
                   && !HappenedSince(l, run, base, Remove(u))
    {
      ResetTracked(l, run, base, t, Row(u, e.now + l.reset), e.now, now);
      LiveTracked(l, run, base, u, e.now);
    }
  }

  // ---------------------------------------------------------------- accounts

  /**
   Registering opens an account under an id never given out before.  In every continuation
   its user can log in, and ask for a password reset, if and only if the account has not
   been removed.
   */
  lemma RegisteredUserIsServedIff(l: Lifetimes, before: Run<Event>, at: int) returns (u: UserId)
    ensures u !in After(l, before).users && NeverGivenOut(After(l, before), u)
    ensures forall run, now, secondFactor :: Extends(run, Then(before, Event(at, Register)), at) ==>
              (Grants(After(l, run), Event(now, Login(u, secondFactor)))
               <==> !HappenedSince(l, run, Then(before, Event(at, Register)), Remove(u)))
    ensures forall run, now :: Extends(run, Then(before, Event(at, Register)), at) ==>
              (Grants(After(l, run), Event(now, ForgotPassword(u)))
               <==> !HappenedSince(l, run, Then(before, Event(at, Register)), Remove(u)))
  {
    RunIsConsistent(l, before);
    u := After(l, before).nextId;
    var base := Then(before, Event(at, Register));
    assert Live(After(l, base), u) && Present(After(l, base), u) && u < After(l, base).nextId;
    hide Serve, Consistent;
    forall run, now, secondFactor | Extends(run, base, at)
      ensures Grants(After(l, run), Event(now, Login(u, secondFactor))) <==> !HappenedSince(l, run, base, Remove(u))
    {
      LiveTracked(l, run, base, u, at);
    }
    forall run, now | Extends(run, base, at)
      ensures Grants(After(l, run), Event(now, ForgotPassword(u))) <==> !HappenedSince(l, run, base, Remove(u))
    {
      LiveTracked(l, run, base, u, at);
    }
  }

  // ---------------------------------------------------------------- cleanup

  /** The rows of one table that are left are those that had not expired, as they were. */
  ghost predicate OnlyUnexpired(was: map<TokenId, Row>, is': map<TokenId, Row>, now: int) {
    forall t :: (t in is' <==> t in was && now <= was[t].expires) && (t in is' ==> is'[t] == was[t])
  }

  /** Cleaning up is always granted, deletes exactly the expired rows of the three tables and touches nothing else. */
  lemma CleanupDeletesExpired(l: Lifetimes, s: Store, now: int)
    ensures var q := Serve(l, s, Event(now, Cleanup));
            && OnlyUnexpired(s.revoked, q.revoked, now) && OnlyUnexpired(s.refresh, q.refresh, now)
            && OnlyUnexpired(s.resets, q.resets, now)
            && q.users == s.users && q.issued == s.issued && q.nextId == s.nextId
  {
  }
}
