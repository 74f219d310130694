/**
 Access, refresh and password-reset tokens (api/auth.py, api/deps.py, the token routes of
 api/routes/auth_routes.py and mfa_routes.py) together with the job that deletes expired
 rows (api/services/scheduler.py).  Requests run one after the other; a request that is
 turned away is rolled back.  Random tokens and token ids never repeat, and an access
 token cannot be made up: it decodes only if the server issued it.
 */
module TokenLifecycle {
  import opened FiniteSets
  import opened Outcomes
  import opened Runs

  type UserId = nat
  type TokenId = nat

  /** How long each kind of token lives. */
  datatype Lifetimes = Lifetimes(access: int, pending: int, refresh: int, reset: int)

  datatype User = User(active: bool, deleted: bool)

  /** A signed access token; `pending` marks one that only completes a second factor. */
  datatype Access = Access(user: UserId, expires: int, pending: bool)

  /** A row of one of the three token tables. */
  datatype Row = Row(user: UserId, expires: int)

  datatype Store = Store(
    users: map<UserId, User>,
    issued: map<TokenId, Access>,
    revoked: map<TokenId, Row>,
    refresh: map<TokenId, Row>,
    resets: map<TokenId, Row>,
    nextId: nat)

  const NEW_STORE := Store(map[], map[], map[], map[], map[], 0)

  /** An authorization header of the bearer scheme; `exact` says whether the scheme is spelled just "Bearer". */
  datatype Header = Header(exact: bool, token: TokenId)

  /** What a state-changing request carries: a header, a cookie, and whether its CSRF header matches its CSRF cookie. */
  datatype Credentials = Credentials(header: Option<Header>, cookie: Option<TokenId>, csrfOk: bool)

  /** The token that authenticates: the header's in any spelling, else the cookie's if it is protected. */
  function Presented(c: Credentials): Option<TokenId> {
    if c.header.Some? then Some(c.header.value.token) else if c.csrfOk then c.cookie else None
  }

  /** The token that logging out revokes: the header's in the exact spelling, else the cookie's. */
  function Reread(c: Credentials): Option<TokenId> {
    if c.header.Some? && c.header.value.exact then Some(c.header.value.token) else c.cookie
  }

  datatype Request =
    | Register
    | Login(user: UserId, secondFactor: bool)
    | CompleteLogin(access: TokenId, codeOk: bool)
    | Use(access: TokenId)
    | Refresh(token: TokenId)
    | Logout(credentials: Credentials)
    | ChangePassword(access: TokenId, passwordOk: bool)
    | ForgotPassword(user: UserId)
    | ResetPassword(token: TokenId)
    | Remove(user: UserId)
    | Purge(user: UserId)
    | Cleanup

  datatype Event = Event(now: int, request: Request)

  // ---------------------------------------------------------------- building blocks

  predicate Present(s: Store, u: UserId) {
    u in s.users && !s.users[u].deleted
  }

  predicate Decodes(s: Store, t: TokenId, now: int) {
    t in s.issued && now < s.issued[t].expires
  }

  /** Whether an access token authenticates its user. */
  predicate Authenticates(s: Store, t: TokenId, now: int) {
    && Decodes(s, t, now)
    && !s.issued[t].pending
    && t !in s.revoked
    && Present(s, s.issued[t].user)
    && s.users[s.issued[t].user].active
  }

  function WithoutUser(table: map<TokenId, Row>, u: UserId): map<TokenId, Row> {
    map t | t in table && table[t].user != u :: table[t]
  }

  function Unexpired(table: map<TokenId, Row>, now: int): map<TokenId, Row> {
    map t | t in table && table[t].expires >= now :: table[t]
  }

  function IssueAccess(s: Store, u: UserId, expires: int, pending: bool): Store {
    s.(issued := s.issued[s.nextId := Access(u, expires, pending)], nextId := s.nextId + 1)
  }

  /** A new access and a new refresh token. */
  function IssuePair(l: Lifetimes, s: Store, u: UserId, now: int): Store {
    var a := IssueAccess(s, u, now + l.access, false);
    a.(refresh := a.refresh[a.nextId := Row(u, now + l.refresh)], nextId := a.nextId + 1)
  }

  /** Whether a refresh or reset token is in its table and not past its expiry. */
  predicate Valid(table: map<TokenId, Row>, t: TokenId, now: int) {
    t in table && now <= table[t].expires
  }

  /**
   Whether logging out can revoke this token, if any: one that does not decode or is revoked
   already makes it raise.
   */
  predicate Revocable(s: Store, t: Option<TokenId>, now: int) {
    t.Some? ==> Decodes(s, t.value, now) && t.value !in s.revoked
  }

  /** A row for the token, if any, until it expires; it is in the name of the user who logs out. */
  function WithRevoked(s: Store, t: Option<TokenId>, u: UserId): map<TokenId, Row>
    requires t.Some? ==> t.value in s.issued
  {
    if t.Some? then s.revoked[t.value := Row(u, s.issued[t.value].expires)] else s.revoked
  }

  /** Whether the request is granted. */
  predicate Grants(s: Store, e: Event) {
    match e.request
    case Register => true
    case Login(u, _) => Present(s, u) && s.users[u].active
    case CompleteLogin(t, ok) => Decodes(s, t, e.now) && s.issued[t].pending && Present(s, s.issued[t].user) && ok
    case Use(t) => Authenticates(s, t, e.now)
    case Refresh(t) => Valid(s.refresh, t, e.now)
    case Logout(c) =>
      Presented(c).Some? && Authenticates(s, Presented(c).value, e.now) && Revocable(s, Reread(c), e.now)
    case ChangePassword(t, ok) => Authenticates(s, t, e.now) && ok
    case ForgotPassword(u) => Present(s, u)
    case ResetPassword(t) => Valid(s.resets, t, e.now) && Present(s, s.resets[t].user)
    case Remove(u) => Present(s, u)
    case Purge(u) => u in s.users && s.users[u].deleted
    case Cleanup => true
  }

  /** What a granted request does. */
  function Effect(l: Lifetimes, s: Store, e: Event): Store
    requires Grants(s, e)
  {
    match e.request
    case Register => s.(users := s.users[s.nextId := User(true, false)], nextId := s.nextId + 1)
    case Login(u, secondFactor) =>
      if secondFactor then IssueAccess(s, u, e.now + l.pending, true) else IssuePair(l, s, u, e.now)
    case CompleteLogin(t, _) => IssuePair(l, s, s.issued[t].user, e.now)
    case Use(t) => s
    case Refresh(t) => IssuePair(l, s.(refresh := s.refresh - {t}), s.refresh[t].user, e.now)
    case Logout(c) =>
      var u := s.issued[Presented(c).value].user;
      s.(revoked := WithRevoked(s, Reread(c), u), refresh := WithoutUser(s.refresh, u))
    case ChangePassword(t, _) => s.(refresh := WithoutUser(s.refresh, s.issued[t].user))
    case ForgotPassword(u) => s.(resets := s.resets[s.nextId := Row(u, e.now + l.reset)], nextId := s.nextId + 1)
    case ResetPassword(t) => s.(resets := s.resets - {t}, refresh := WithoutUser(s.refresh, s.resets[t].user))
    case Remove(u) => s.(users := s.users[u := User(false, true)])
    case Purge(u) =>
      s.(users := s.users - {u}, revoked := WithoutUser(s.revoked, u),
         refresh := WithoutUser(s.refresh, u), resets := WithoutUser(s.resets, u))
    case Cleanup =>
      s.(revoked := Unexpired(s.revoked, e.now), refresh := Unexpired(s.refresh, e.now),
         resets := Unexpired(s.resets, e.now))
  }

  function Serve(l: Lifetimes, s: Store, e: Event): Store {
    if Grants(s, e) then Effect(l, s, e) else s
  }

  function After(l: Lifetimes, run: Run<Event>): Store {
    match run
    case Start => NEW_STORE
    case Then(before, e) => Serve(l, After(l, before), e)
  }

  predicate ClockMonotone(run: Run<Event>, now: int) {
    run.Then? ==> run.last.now <= now && ClockMonotone(run.before, run.last.now)
  }

  // ---------------------------------------------------- cleanup is unobservable

  /** The run without its cleanup steps. */
  function WithoutCleanup(run: Run<Event>): Run<Event> {
    match run
    case Start => Start
    case Then(before, e) => if e.request.Cleanup? then WithoutCleanup(before) else Then(WithoutCleanup(before), e)
  }

  /** One table is the other one less some rows that have expired. */
  ghost predicate Swept(a: map<TokenId, Row>, b: map<TokenId, Row>, now: int) {
    && (forall t :: t in a ==> t in b && a[t] == b[t])
    && (forall t :: t in b && t !in a ==> b[t].expires < now)
  }

  ghost predicate SweptStore(a: Store, b: Store, now: int) {
    && a.users == b.users && a.issued == b.issued && a.nextId == b.nextId
    && Swept(a.revoked, b.revoked, now)
    && Swept(a.refresh, b.refresh, now)
    && Swept(a.resets, b.resets, now)
  }

  /** Every id in a table has been given out, and so has its user's. */
  ghost predicate GivenOut(table: map<TokenId, Row>, nextId: nat) {
    forall t :: t in table ==> t < nextId && table[t].user < nextId
  }

  /** A revocation lasts as long as the token it revokes. */
  ghost predicate RevokesIssued(revoked: map<TokenId, Row>, issued: map<TokenId, Access>) {
    forall t :: t in revoked ==> t in issued && revoked[t].expires == issued[t].expires
  }

  ghost predicate Consistent(s: Store) {
    && RevokesIssued(s.revoked, s.issued)
    && GivenOut(s.refresh, s.nextId) && GivenOut(s.resets, s.nextId)
    && (forall t :: t in s.issued ==> t < s.nextId && s.issued[t].user < s.nextId)
    && (forall u :: u in s.users ==> u < s.nextId)
  }

  lemma GivenOutKept(table: map<TokenId, Row>, n: nat, n': nat, k: TokenId, r: Row, u: UserId, now: int)
    requires GivenOut(table, n) && n <= n'
    ensures GivenOut(table, n') && GivenOut(table - {k}, n')
    ensures GivenOut(WithoutUser(table, u), n') && GivenOut(Unexpired(table, now), n')
    ensures k < n' && r.user < n' ==> GivenOut(table[k := r], n')
  {
  }

  lemma RevokesKept(
    revoked: map<TokenId, Row>, issued: map<TokenId, Access>, k: TokenId, acc: Access, u: UserId, now: int)
    requires RevokesIssued(revoked, issued)
    ensures RevokesIssued(WithoutUser(revoked, u), issued) && RevokesIssued(Unexpired(revoked, now), issued)
    ensures k !in issued ==> RevokesIssued(revoked, issued[k := acc])
    ensures k in issued ==> RevokesIssued(revoked[k := Row(u, issued[k].expires)], issued)
  {
  }

  lemma PairKeepsConsistent(l: Lifetimes, s: Store, u: UserId, now: int, pending: bool, expires: int)
    requires Consistent(s) && u < s.nextId
    ensures Consistent(IssueAccess(s, u, expires, pending)) && Consistent(IssuePair(l, s, u, now))
  {
    hide GivenOut, RevokesIssued;
    var n := s.nextId;
    RevokesKept(s.revoked, s.issued, n, Access(u, expires, pending), 0, 0);
    RevokesKept(s.revoked, s.issued, n, Access(u, now + l.access, false), 0, 0);
    GivenOutKept(s.refresh, n, n + 1, 0, Row(0, 0), 0, 0);
    GivenOutKept(s.resets, n, n + 1, 0, Row(0, 0), 0, 0);
    GivenOutKept(s.resets, n, n + 2, 0, Row(0, 0), 0, 0);
    GivenOutKept(s.refresh, n, n + 2, n + 1, Row(u, now + l.refresh), 0, 0);
  }

  lemma IssuingKeepsConsistent(l: Lifetimes, s: Store, e: Event)
    requires Consistent(s) && Grants(s, e)
    requires e.request.Login? || e.request.CompleteLogin? || e.request.Refresh? || e.request.ForgotPassword?
    ensures Consistent(Effect(l, s, e)) && s.nextId <= Effect(l, s, e).nextId
  {
    hide GivenOut, RevokesIssued, IssuePair, IssueAccess;
    var n := s.nextId;
    match e.request
    case Login(u, _) =>
      PairKeepsConsistent(l, s, u, e.now, true, e.now + l.pending);
      IdsGrow(l, s, u, e.now, true, e.now + l.pending);
    case CompleteLogin(t, _) =>
      PairKeepsConsistent(l, s, s.issued[t].user, e.now, true, 0);
      IdsGrow(l, s, s.issued[t].user, e.now, true, 0);
    case Refresh(t) =>
      GivenOutKept(s.refresh, n, n, t, s.refresh[t], 0, 0);
      UserGivenOut(s.refresh, n, t);
      PairKeepsConsistent(l, s.(refresh := s.refresh - {t}), s.refresh[t].user, e.now, true, 0);
      IdsGrow(l, s.(refresh := s.refresh - {t}), s.refresh[t].user, e.now, true, 0);
    case ForgotPassword(u) =>
      GivenOutKept(s.refresh, n, n + 1, 0, Row(0, 0), 0, 0);
      GivenOutKept(s.resets, n, n + 1, n, Row(u, e.now + l.reset), 0, 0);
  }

  lemma RevokingKeepsConsistent(l: Lifetimes, s: Store, e: Event)
    requires Consistent(s) && Grants(s, e)
    requires e.request.Logout? || e.request.ChangePassword? || e.request.ResetPassword?
    ensures Consistent(Effect(l, s, e)) && s.nextId <= Effect(l, s, e).nextId
  {
    hide GivenOut, RevokesIssued, WithoutUser, Present;
    var n := s.nextId;
    match e.request
    case Logout(c) =>
      var u := s.issued[Presented(c).value].user;
      if Reread(c).Some? {
        RevokesKept(s.revoked, s.issued, Reread(c).value, Access(0, 0, false), u, 0);
      }
      GivenOutKept(s.refresh, n, n, 0, Row(0, 0), u, 0);
    case ChangePassword(t, _) =>
      GivenOutKept(s.refresh, n, n, 0, Row(0, 0), s.issued[t].user, 0);
    case ResetPassword(t) =>
      GivenOutKept(s.resets, n, n, t, Row(0, 0), 0, 0);
      GivenOutKept(s.refresh, n, n, 0, Row(0, 0), s.resets[t].user, 0);
  }

  lemma OthersKeepConsistent(l: Lifetimes, s: Store, e: Event)
    requires Consistent(s) && Grants(s, e)
    requires e.request.Register? || e.request.Use? || e.request.Remove? || e.request.Purge? || e.request.Cleanup?
    ensures Consistent(Effect(l, s, e)) && s.nextId <= Effect(l, s, e).nextId
  {
    hide GivenOut, RevokesIssued, WithoutUser, Unexpired, Authenticates;
    var n := s.nextId;
    match e.request
    case Register =>
      GivenOutKept(s.refresh, n, n + 1, 0, Row(0, 0), 0, 0);
      GivenOutKept(s.resets, n, n + 1, 0, Row(0, 0), 0, 0);
    case Use(t) =>
    case Remove(u) =>
    case Purge(u) =>
      RevokesKept(s.revoked, s.issued, 0, Access(0, 0, false), u, 0);
      GivenOutKept(s.refresh, n, n, 0, Row(0, 0), u, 0);
      GivenOutKept(s.resets, n, n, 0, Row(0, 0), u, 0);
    case Cleanup =>
      RevokesKept(s.revoked, s.issued, 0, Access(0, 0, false), 0, e.now);
      GivenOutKept(s.refresh, n, n, 0, Row(0, 0), 0, e.now);
      GivenOutKept(s.resets, n, n, 0, Row(0, 0), 0, e.now);
  }

  lemma ServeKeepsConsistent(l: Lifetimes, s: Store, e: Event)
    requires Consistent(s)
    ensures Consistent(Serve(l, s, e))
    ensures s.nextId <= Serve(l, s, e).nextId
  {
    hide Grants, Effect, Consistent;
    if Grants(s, e) {
      match e.request
      case Login(_, _) => IssuingKeepsConsistent(l, s, e);
      case CompleteLogin(_, _) => IssuingKeepsConsistent(l, s, e);
      case Refresh(_) => IssuingKeepsConsistent(l, s, e);
      case ForgotPassword(_) => IssuingKeepsConsistent(l, s, e);
      case Logout(_) => RevokingKeepsConsistent(l, s, e);
      case ChangePassword(_, _) => RevokingKeepsConsistent(l, s, e);
      case ResetPassword(_) => RevokingKeepsConsistent(l, s, e);
      case _ => OthersKeepConsistent(l, s, e);
    }
  }

  lemma UserGivenOut(table: map<TokenId, Row>, n: nat, t: TokenId)
    requires GivenOut(table, n) && t in table
    ensures table[t].user < n && t < n
  {
  }

  lemma IdsGrow(l: Lifetimes, s: Store, u: UserId, now: int, pending: bool, expires: int)
    ensures s.nextId <= IssuePair(l, s, u, now).nextId
    ensures s.nextId <= IssueAccess(s, u, expires, pending).nextId
  {
  }

  /** The answer to a request does not depend on rows that have expired. */
  lemma SameAnswer(a: Store, b: Store, e: Event)
    requires SweptStore(a, b, e.now) && Consistent(b)
    ensures Grants(a, e) <==> Grants(b, e)
  {
    hide GivenOut;
  }

  lemma SweptKept(a: map<TokenId, Row>, b: map<TokenId, Row>, now: int, k: TokenId, r: Row, u: UserId)
    requires Swept(a, b, now)
    ensures Swept(a - {k}, b - {k}, now) && Swept(a[k := r], b[k := r], now)
    ensures Swept(WithoutUser(a, u), WithoutUser(b, u), now)
    ensures Swept(Unexpired(a, now), b, now)
  {
  }

  lemma SweptRow(a: map<TokenId, Row>, b: map<TokenId, Row>, now: int, t: TokenId)
    requires Swept(a, b, now)
    ensures Valid(a, t, now) <==> Valid(b, t, now)
    ensures t in a && t in b ==> a[t] == b[t]
  {
  }

  lemma PairKeepsSwept(l: Lifetimes, a: Store, b: Store, u: UserId, now: int, pending: bool, expires: int)
    requires SweptStore(a, b, now)
    ensures SweptStore(IssueAccess(a, u, expires, pending), IssueAccess(b, u, expires, pending), now)
    ensures SweptStore(IssuePair(l, a, u, now), IssuePair(l, b, u, now), now)
  {
    hide Swept;
    SweptKept(a.refresh, b.refresh, now, a.nextId + 1, Row(u, now + l.refresh), 0);
  }

  lemma SameEffectIssuing(l: Lifetimes, a: Store, b: Store, e: Event)
    requires SweptStore(a, b, e.now) && Grants(a, e) && Grants(b, e)
    requires e.request.Login? || e.request.CompleteLogin? || e.request.Refresh? || e.request.ForgotPassword?
    ensures SweptStore(Effect(l, a, e), Effect(l, b, e), e.now)
  {
    hide Swept, Authenticates, IssuePair, IssueAccess, Present;
    match e.request
    case Login(u, _) => PairKeepsSwept(l, a, b, u, e.now, true, e.now + l.pending);
    case CompleteLogin(t, _) => PairKeepsSwept(l, a, b, a.issued[t].user, e.now, true, 0);
    case Refresh(t) =>
      SweptRow(a.refresh, b.refresh, e.now, t);
      SweptKept(a.refresh, b.refresh, e.now, t, a.refresh[t], 0);
      PairKeepsSwept(l, a.(refresh := a.refresh - {t}), b.(refresh := b.refresh - {t}),
                     a.refresh[t].user, e.now, true, 0);
    case ForgotPassword(u) =>
      SweptKept(a.resets, b.resets, e.now, a.nextId, Row(u, e.now + l.reset), 0);
  }

  lemma SameEffectRevoking(l: Lifetimes, a: Store, b: Store, e: Event)
    requires SweptStore(a, b, e.now) && Grants(a, e) && Grants(b, e)
    requires e.request.Logout? || e.request.ChangePassword? || e.request.ResetPassword?
    ensures SweptStore(Effect(l, a, e), Effect(l, b, e), e.now)
  {
    hide Swept, WithoutUser, Present;
    match e.request
    case Logout(c) =>
      var u := a.issued[Presented(c).value].user;
      if Reread(c).Some? {
        SweptKept(a.revoked, b.revoked, e.now, Reread(c).value, Row(u, a.issued[Reread(c).value].expires), 0);
      }
      SweptKept(a.refresh, b.refresh, e.now, 0, Row(0, 0), u);
    case ChangePassword(t, _) =>
      SweptKept(a.refresh, b.refresh, e.now, 0, Row(0, 0), a.issued[t].user);
    case ResetPassword(t) =>
      SweptRow(a.resets, b.resets, e.now, t);
      SweptKept(a.resets, b.resets, e.now, t, a.resets[t], 0);
      SweptKept(a.refresh, b.refresh, e.now, 0, Row(0, 0), a.resets[t].user);
  }

  lemma SameEffectOnUsers(l: Lifetimes, a: Store, b: Store, e: Event)
    requires SweptStore(a, b, e.now) && Grants(a, e) && Grants(b, e)
    requires e.request.Register? || e.request.Use? || e.request.Remove? || e.request.Purge?
    ensures SweptStore(Effect(l, a, e), Effect(l, b, e), e.now)
  {
    hide Swept, WithoutUser, Authenticates;
    match e.request
    case Register =>
    case Use(t) =>
    case Remove(u) =>
    case Purge(u) =>
      SweptKept(a.revoked, b.revoked, e.now, 0, Row(0, 0), u);
      SweptKept(a.refresh, b.refresh, e.now, 0, Row(0, 0), u);
      SweptKept(a.resets, b.resets, e.now, 0, Row(0, 0), u);
  }

  lemma CleanupSweeps(l: Lifetimes, a: Store, b: Store, now: int)
    requires SweptStore(a, b, now)
    ensures SweptStore(Serve(l, a, Event(now, Cleanup)), b, now)
  {
    hide Swept, Unexpired;
    SweptKept(a.revoked, b.revoked, now, 0, Row(0, 0), 0);
    SweptKept(a.refresh, b.refresh, now, 0, Row(0, 0), 0);
    SweptKept(a.resets, b.resets, now, 0, Row(0, 0), 0);
  }

  lemma SameEffect(l: Lifetimes, a: Store, b: Store, e: Event)
    requires SweptStore(a, b, e.now) && Consistent(b)
    ensures SweptStore(Serve(l, a, e), if e.request.Cleanup? then b else Serve(l, b, e), e.now)
  {
    hide Grants, Effect, SweptStore, Consistent;
    SameAnswer(a, b, e);
    if e.request.Cleanup? {
      CleanupSweeps(l, a, b, e.now);
    } else if Grants(a, e) {
      match e.request
      case Login(_, _) => SameEffectIssuing(l, a, b, e);
      case CompleteLogin(_, _) => SameEffectIssuing(l, a, b, e);
      case Refresh(_) => SameEffectIssuing(l, a, b, e);
      case ForgotPassword(_) => SameEffectIssuing(l, a, b, e);
      case Logout(_) => SameEffectRevoking(l, a, b, e);
      case ChangePassword(_, _) => SameEffectRevoking(l, a, b, e);
      case ResetPassword(_) => SameEffectRevoking(l, a, b, e);
      case _ => SameEffectOnUsers(l, a, b, e);
    }
  }

  lemma {:induction false} RunIsSwept(l: Lifetimes, run: Run<Event>, now: int)
    requires ClockMonotone(run, now)
    ensures SweptStore(After(l, run), After(l, WithoutCleanup(run)), now)
    ensures Consistent(After(l, WithoutCleanup(run)))
  {
    match run
    case Start =>
    case Then(before, e) =>
      hide Serve, SweptStore, Consistent;
      var a, b := After(l, before), After(l, WithoutCleanup(before));
      RunIsSwept(l, before, e.now);
      SameEffect(l, a, b, e);
      ServeKeepsConsistent(l, b, e);
      SweptLater(After(l, run), After(l, WithoutCleanup(run)), e.now, now);
  }

  lemma SweptLater(a: Store, b: Store, now: int, now': int)
    requires SweptStore(a, b, now) && now <= now'
    ensures SweptStore(a, b, now')
  {
  }

  /**
   However often and whenever expired rows are deleted, every later request gets the
   answer it would have got without any deletion.
   */
  lemma CleanupIsUnobservable(l: Lifetimes, run: Run<Event>, e: Event)
    requires ClockMonotone(run, e.now)
    ensures Grants(After(l, run), e) <==> Grants(After(l, WithoutCleanup(run)), e)
  {
    hide Grants, SweptStore, Consistent;
    RunIsSwept(l, run, e.now);
    SameAnswer(After(l, run), After(l, WithoutCleanup(run)), e);
  }

  // ---------------------------------------------------- what is spent stays spent

  /** `run` continues `base` with events from `at` on. */
  predicate Extends(run: Run<Event>, base: Run<Event>, at: int) {
    run == base || (run.Then? && at <= run.last.now && Extends(run.before, base, at))
  }

  lemma {:induction false} RunIsConsistent(l: Lifetimes, run: Run<Event>)
    ensures Consistent(After(l, run))
  {
    if run.Then? {
      hide Serve, Consistent;
      RunIsConsistent(l, run.before);
      ServeKeepsConsistent(l, After(l, run.before), run.last);
    } else {
      assert NEW_STORE.users == map[];
    }
  }

  /** Nothing that was missing under an id already given out comes back; issued tokens and removals stay. */
  ghost predicate OnlyFreshIds(s: Store, q: Store) {
    && s.nextId <= q.nextId
    && (forall t :: t in q.refresh && t < s.nextId ==> t in s.refresh)
    && (forall t :: t in q.resets && t < s.nextId ==> t in s.resets)
    && (forall t :: t in s.issued && t < s.nextId ==> t in q.issued && q.issued[t] == s.issued[t])
    && (forall u :: u in q.users && u < s.nextId ==> u in s.users && (s.users[u].deleted ==> q.users[u].deleted))
  }

  lemma PairAddsFreshIds(l: Lifetimes, s: Store, u: UserId, now: int, pending: bool, expires: int)
    ensures OnlyFreshIds(s, IssueAccess(s, u, expires, pending)) && OnlyFreshIds(s, IssuePair(l, s, u, now))
  {
  }

  lemma IssuingAddsFreshIds(l: Lifetimes, s: Store, e: Event)
    requires Grants(s, e)
    requires e.request.Login? || e.request.CompleteLogin? || e.request.Refresh? || e.request.ForgotPassword?
    ensures OnlyFreshIds(s, Effect(l, s, e))
  {
    match e.request
    case Login(u, _) => PairAddsFreshIds(l, s, u, e.now, true, e.now + l.pending);
    case CompleteLogin(t, _) => PairAddsFreshIds(l, s, s.issued[t].user, e.now, true, 0);
    case Refresh(t) =>
      hide IssuePair, IssueAccess;
      PairAddsFreshIds(l, s.(refresh := s.refresh - {t}), s.refresh[t].user, e.now, true, 0);
      assert OnlyFreshIds(s, Effect(l, s, e));
    case ForgotPassword(u) =>
  }

  lemma RevokingAddsFreshIds(l: Lifetimes, s: Store, e: Event)
    requires Grants(s, e)
    requires e.request.Logout? || e.request.ChangePassword? || e.request.ResetPassword?
    ensures OnlyFreshIds(s, Effect(l, s, e))
  {
  }

  lemma OthersAddFreshIds(l: Lifetimes, s: Store, e: Event)
    requires Grants(s, e)
    requires e.request.Register? || e.request.Use? || e.request.Remove? || e.request.Purge? || e.request.Cleanup?
    ensures OnlyFreshIds(s, Effect(l, s, e))
  {
  }

  lemma ServeAddsFreshIds(l: Lifetimes, s: Store, e: Event)
    ensures OnlyFreshIds(s, Serve(l, s, e))
  {
    hide Grants, Effect;
    if Grants(s, e) {
      match e.request
      case Login(_, _) => IssuingAddsFreshIds(l, s, e);
      case CompleteLogin(_, _) => IssuingAddsFreshIds(l, s, e);
      case Refresh(_) => IssuingAddsFreshIds(l, s, e);
      case ForgotPassword(_) => IssuingAddsFreshIds(l, s, e);
      case Logout(_) => RevokingAddsFreshIds(l, s, e);
      case ChangePassword(_, _) => RevokingAddsFreshIds(l, s, e);
      case ResetPassword(_) => RevokingAddsFreshIds(l, s, e);
      case _ => OthersAddFreshIds(l, s, e);
    }
    assert OnlyFreshIds(s, Serve(l, s, e));
  }

  /** Revoked in the name of its own user, so that no purge of another user takes the revocation away. */
  predicate RevokedByOwner(s: Store, t: TokenId) {
    t in s.issued && t in s.revoked && s.revoked[t].user == s.issued[t].user
  }

  /** An access token that can never authenticate again: revoked, or expired, or its user gone for good. */
  predicate Dead(s: Store, t: TokenId, now: int) {
    && t in s.issued && t < s.nextId
    && (RevokedByOwner(s, t) || s.issued[t].expires <= now
        || (s.issued[t].user !in s.users && s.issued[t].user < s.nextId))
  }

  lemma TablesKeepRevoked(l: Lifetimes, s: Store, e: Event, t: TokenId)
    requires Consistent(s) && Grants(s, e) && RevokedByOwner(s, t)
    ensures var q := Effect(l, s, e);
            (t in q.revoked && q.revoked[t] == s.revoked[t])
            || s.issued[t].expires < e.now || s.issued[t].user !in q.users
  {
    hide GivenOut, Authenticates, WithoutUser, Unexpired;
    match e.request
    case Purge(u) => PurgeKeepsRevoked(s.revoked, u, t);
    case Cleanup => CleanupKeepsRevoked(s.revoked, e.now, t);
    case _ =>
  }

  lemma PurgeKeepsRevoked(table: map<TokenId, Row>, u: UserId, t: TokenId)
    requires t in table
    ensures table[t].user == u || (t in WithoutUser(table, u) && WithoutUser(table, u)[t] == table[t])
  {
  }

  lemma CleanupKeepsRevoked(table: map<TokenId, Row>, now: int, t: TokenId)
    requires t in table
    ensures table[t].expires < now || (t in Unexpired(table, now) && Unexpired(table, now)[t] == table[t])
  {
  }

  lemma ServeKeepsDead(l: Lifetimes, s: Store, e: Event, t: TokenId)
    requires Consistent(s) && Dead(s, t, e.now)
    ensures Dead(Serve(l, s, e), t, e.now)
  {
    hide Grants, Effect, GivenOut, Consistent;
    ServeAddsFreshIds(l, s, e);
    if Grants(s, e) && RevokedByOwner(s, t) {
      TablesKeepRevoked(l, s, e, t);
      UserOfIssued(s, t);
    }
    assert Dead(Serve(l, s, e), t, e.now);
  }

  lemma UserOfIssued(s: Store, t: TokenId)
    requires Consistent(s) && t in s.issued
    ensures s.issued[t].user < s.nextId
  {
  }

  lemma {:induction false} DeadStaysDead(l: Lifetimes, run: Run<Event>, base: Run<Event>, t: TokenId, at: int, now: int)
    requires Extends(run, base, at) && ClockMonotone(run, now) && at <= now
    requires Dead(After(l, base), t, at)
    ensures Dead(After(l, run), t, now)
  {
    if run != base {
      hide Consistent, Serve;
      DeadStaysDead(l, run.before, base, t, at, run.last.now);
      RunIsConsistent(l, run.before);
      ServeKeepsDead(l, After(l, run.before), run.last, t);
    }
  }

  /** A logout with this token as the one that authenticates and the one that is revoked. */
  predicate RereadsPresented(c: Credentials, t: TokenId) {
    Presented(c) == Some(t) && Reread(c) == Some(t)
  }

  lemma LogoutKills(l: Lifetimes, s: Store, c: Credentials, t: TokenId, r: TokenId, at: int)
    requires Consistent(s) && Presented(c) == Some(t) && Authenticates(s, t, at) && Reread(c) == Some(r)
    requires Grants(s, Event(at, Logout(c))) && s.issued[r].user == s.issued[t].user
    ensures Dead(Serve(l, s, Event(at, Logout(c))), r, at)
  {
    hide WithoutUser, Authenticates;
    IssuedIsGivenOut(s, r);
  }

  /**
   Once a user has logged out with an access token that the route reads again, no
   continuation of the run accepts it.
   */
  lemma LoggedOutTokenIsNeverAccepted(
    l: Lifetimes, before: Run<Event>, c: Credentials, t: TokenId, at: int, run: Run<Event>, now: int)
    requires RereadsPresented(c, t) && Authenticates(After(l, before), t, at)
    requires Extends(run, Then(before, Event(at, Logout(c))), at) && ClockMonotone(run, now) && at <= now
    ensures !Authenticates(After(l, run), t, now)
  {
    hide Extends, Consistent;
    RunIsConsistent(l, before);
    LogoutKills(l, After(l, before), c, t, t, at);
    DeadStaysDead(l, run, Then(before, Event(at, Logout(c))), t, at, now);
  }

  ghost predicate NeverAccepted(l: Lifetimes, base: Run<Event>, t: TokenId, at: int) {
    forall run, now :: Extends(run, base, at) && ClockMonotone(run, now) && at <= now ==>
      !Authenticates(After(l, run), t, now)
  }

  lemma OtherTokenStays(l: Lifetimes, s: Store, c: Credentials, t: TokenId, at: int)
    requires Authenticates(s, t, at) && Reread(c) != Some(t)
    ensures Authenticates(Serve(l, s, Event(at, Logout(c))), t, at)
  {
    hide WithoutUser;
  }

  /**
   The logout route looks for the token again, in a header that starts with exactly
   "Bearer " or in the cookie, although the token was accepted from any spelling of the
   scheme: logging out ends the access token that authenticates if and only if that search
   finds the same one, which it does unless another spelling comes without this cookie.
   */
  lemma LogoutEndsTokenIff(l: Lifetimes, before: Run<Event>, c: Credentials, t: TokenId, at: int)
    requires Presented(c) == Some(t) && Authenticates(After(l, before), t, at) && ClockMonotone(before, at)
    ensures NeverAccepted(l, Then(before, Event(at, Logout(c))), t, at) <==> Reread(c) == Some(t)
    ensures Reread(c) == Some(t) <==> (c.header.Some? && !c.header.value.exact ==> c.cookie == Some(t))
  {
    var base := Then(before, Event(at, Logout(c)));
    if Reread(c) == Some(t) {
      forall run, now | Extends(run, base, at) && ClockMonotone(run, now) && at <= now
        ensures !Authenticates(After(l, run), t, now)
      {
        LoggedOutTokenIsNeverAccepted(l, before, c, t, at, run, now);
      }
    } else {
      hide Serve;
      assert Extends(base, base, at) && ClockMonotone(base, at);
      OtherTokenStays(l, After(l, before), c, t, at);
      assert Authenticates(After(l, base), t, at);
    }
  }

  /**
   In another spelling of the scheme the header's token t authenticates and the cookie's
   token r is the one to revoke.  If r has expired, was never issued or is revoked already,
   the request raises and leaves everything as it was, refresh tokens included; otherwise r
   is revoked instead of t.
   */
  lemma OtherSpelling(l: Lifetimes, s: Store, c: Credentials, t: TokenId, r: TokenId, at: int)
    requires c.header == Some(Header(false, t)) && c.cookie == Some(r) && r != t && Authenticates(s, t, at)
    ensures var e, q := Event(at, Logout(c)), Serve(l, s, Event(at, Logout(c)));
            && (Grants(s, e) <==> Decodes(s, r, at) && r !in s.revoked)
            && (!Grants(s, e) ==> q == s)
            && (Grants(s, e) ==> q.revoked.Keys == s.revoked.Keys + {r} && !Authenticates(q, r, at))
            && Authenticates(q, t, at)
  {
    OtherTokenStays(l, s, c, t, at);
    hide WithoutUser;
  }

  /** After the user who revoked it is removed and purged, a revoked token of another user is as good as before. */
  lemma PurgeRestores(l: Lifetimes, s: Store, c: Credentials, t: TokenId, r: TokenId, at: int)
    requires Presented(c) == Some(t) && Reread(c) == Some(r) && Grants(s, Event(at, Logout(c)))
    requires Authenticates(s, r, at) && s.issued[r].user != s.issued[t].user
    ensures var u := s.issued[t].user;
            var q := Serve(l, s, Event(at, Logout(c)));
            Authenticates(Serve(l, Serve(l, q, Event(at, Remove(u))), Event(at, Purge(u))), r, at)
  {
    var u := s.issued[t].user;
    var q := Serve(l, s, Event(at, Logout(c)));
    assert q.users == s.users && q.issued == s.issued && r in q.revoked && q.revoked[r].user == u;
    var removed := Serve(l, q, Event(at, Remove(u)));
    assert removed == q.(users := q.users[u := User(false, true)]);
    var purged := Serve(l, removed, Event(at, Purge(u)));
    assert r !in purged.revoked;
  }

  lemma OwnTokenEnds(l: Lifetimes, before: Run<Event>, c: Credentials, t: TokenId, r: TokenId, at: int)
    requires Presented(c) == Some(t) && Reread(c) == Some(r) && ClockMonotone(before, at)
    requires Grants(After(l, before), Event(at, Logout(c)))
    requires After(l, before).issued[r].user == After(l, before).issued[t].user
    ensures NeverAccepted(l, Then(before, Event(at, Logout(c))), r, at)
  {
    var s, base := After(l, before), Then(before, Event(at, Logout(c)));
    RunIsConsistent(l, before);
    LogoutKills(l, s, c, t, r, at);
    hide Consistent, Extends, Serve, Grants, Authenticates;
    forall run, now | Extends(run, base, at) && ClockMonotone(run, now) && at <= now
      ensures !Authenticates(After(l, run), r, now)
    {
      DeadStaysDead(l, run, base, r, at, now);
      DeadIsRefused(After(l, run), r, now);
    }
  }

  lemma DeadIsRefused(s: Store, t: TokenId, now: int)
    requires Dead(s, t, now)
    ensures !Authenticates(s, t, now)
  {
  }

  lemma OtherUsersTokenReturns(l: Lifetimes, before: Run<Event>, c: Credentials, t: TokenId, r: TokenId, at: int)
    requires Presented(c) == Some(t) && Reread(c) == Some(r) && ClockMonotone(before, at)
    requires Grants(After(l, before), Event(at, Logout(c))) && Authenticates(After(l, before), r, at)
    requires After(l, before).issued[r].user != After(l, before).issued[t].user
    ensures !NeverAccepted(l, Then(before, Event(at, Logout(c))), r, at)
  {
    var base := Then(before, Event(at, Logout(c)));
    var removed := Then(base, Event(at, Remove(After(l, before).issued[t].user)));
    var purged := Then(removed, Event(at, Purge(After(l, before).issued[t].user)));
    PurgeRestores(l, After(l, before), c, t, r, at);
    hide Serve, Grants, Authenticates, Present, Decodes;
    assert After(l, purged) == Serve(l, After(l, removed), purged.last);
    assert After(l, removed) == Serve(l, After(l, base), removed.last);
    assert Extends(base, base, at) && Extends(removed, base, at) && Extends(purged, base, at);
    assert ClockMonotone(base, at) && ClockMonotone(removed, at) && ClockMonotone(purged, at);
    assert Authenticates(After(l, purged), r, at);
  }

  /**
   What becomes of the token that is revoked: it is never accepted again if and only if it
   belongs to the user who logged out.  The revocation is in that user's name, and goes
   when that user is purged.
   */
  lemma RevokedTokenEndsIff(l: Lifetimes, before: Run<Event>, c: Credentials, t: TokenId, r: TokenId, at: int)
    requires Presented(c) == Some(t) && Reread(c) == Some(r) && ClockMonotone(before, at)
    requires Grants(After(l, before), Event(at, Logout(c))) && Authenticates(After(l, before), r, at)
    ensures var issued := After(l, before).issued;
            NeverAccepted(l, Then(before, Event(at, Logout(c))), r, at) <==> issued[r].user == issued[t].user
  {
    if After(l, before).issued[r].user == After(l, before).issued[t].user {
      OwnTokenEnds(l, before, c, t, r, at);
    } else {
      OtherUsersTokenReturns(l, before, c, t, r, at);
    }
    hide *;
  }

  lemma IssuedIsGivenOut(s: Store, t: TokenId)
    requires Consistent(s) && t in s.issued
    ensures t < s.nextId
  {
  }

  /** A refresh or reset token that has been given out and is not in its table. */
  predicate SpentRefresh(s: Store, t: TokenId) {
    t < s.nextId && t !in s.refresh
  }

  predicate SpentReset(s: Store, t: TokenId) {
    t < s.nextId && t !in s.resets
  }

  lemma ServeKeepsSpent(l: Lifetimes, s: Store, e: Event, t: TokenId)
    ensures SpentRefresh(s, t) ==> SpentRefresh(Serve(l, s, e), t)
    ensures SpentReset(s, t) ==> SpentReset(Serve(l, s, e), t)
  {
    hide Serve;
    ServeAddsFreshIds(l, s, e);
    assert SpentRefresh(s, t) ==> SpentRefresh(Serve(l, s, e), t);
    assert SpentReset(s, t) ==> SpentReset(Serve(l, s, e), t);
  }

  lemma {:induction false} SpentStaysSpent(l: Lifetimes, run: Run<Event>, base: Run<Event>, t: TokenId, at: int)
    requires Extends(run, base, at)
    ensures SpentRefresh(After(l, base), t) ==> SpentRefresh(After(l, run), t)
    ensures SpentReset(After(l, base), t) ==> SpentReset(After(l, run), t)
  {
    if run != base {
      hide Serve, SpentRefresh, SpentReset;
      SpentStaysSpent(l, run.before, base, t, at);
      ServeKeepsSpent(l, After(l, run.before), run.last, t);
    }
  }

  /** Each refresh token, and each reset token, is accepted at most once in a run. */
  lemma AcceptedAtMostOnce(l: Lifetimes, before: Run<Event>, e: Event, run: Run<Event>, again: Event)
    requires e.request.Refresh? || e.request.ResetPassword?
    requires Grants(After(l, before), e) && again.request == e.request
    requires Extends(run, Then(before, e), e.now)
    ensures !Grants(After(l, run), again)
  {
    hide Extends, Authenticates;
    RunIsConsistent(l, before);
    var s := After(l, before);
    SpentStaysSpent(l, run, Then(before, e), e.request.token, e.now);
  }

  /** The user whose refresh tokens a granted request revokes. */
  function Revokes(s: Store, r: Request): set<UserId> {
    match r
    case Logout(c) =>
      if Presented(c).Some? && Presented(c).value in s.issued then {s.issued[Presented(c).value].user} else {}
    case ChangePassword(t, _) => if t in s.issued then {s.issued[t].user} else {}
    case ResetPassword(t) => if t in s.resets then {s.resets[t].user} else {}
    case _ => {}
  }

  /** After a logout, password change or password reset, no refresh token the user had before is ever accepted. */
  lemma EarlierRefreshTokensAreRevoked(
    l: Lifetimes, before: Run<Event>, e: Event, t: TokenId, run: Run<Event>, now: int)
    requires Grants(After(l, before), e) && t in After(l, before).refresh
    requires After(l, before).refresh[t].user in Revokes(After(l, before), e.request)
    requires Extends(run, Then(before, e), e.now)
    ensures !Grants(After(l, run), Event(now, Refresh(t)))
  {
    hide Extends, Authenticates;
    RunIsConsistent(l, before);
    UserGivenOut(After(l, before).refresh, After(l, before).nextId, t);
    SpentStaysSpent(l, run, Then(before, e), t, e.now);
  }

  /** A user id that has been given out and whose account is removed or purged. */
  predicate Gone(s: Store, u: UserId) {
    u < s.nextId && !Present(s, u)
  }

  /** An access token of this user. */
  predicate IssuedTo(s: Store, t: TokenId, u: UserId) {
    t < s.nextId && t in s.issued && s.issued[t].user == u
  }

  lemma ServeKeepsGone(l: Lifetimes, s: Store, e: Event, u: UserId, t: TokenId)
    ensures Gone(s, u) ==> Gone(Serve(l, s, e), u)
    ensures IssuedTo(s, t, u) ==> IssuedTo(Serve(l, s, e), t, u)
  {
    hide Serve;
    ServeAddsFreshIds(l, s, e);
    assert Gone(s, u) ==> Gone(Serve(l, s, e), u);
    assert IssuedTo(s, t, u) ==> IssuedTo(Serve(l, s, e), t, u);
  }

  lemma {:induction false} GoneStaysGone(
    l: Lifetimes, run: Run<Event>, base: Run<Event>, u: UserId, t: TokenId, at: int)
    requires Extends(run, base, at)
    ensures Gone(After(l, base), u) ==> Gone(After(l, run), u)
    ensures IssuedTo(After(l, base), t, u) ==> IssuedTo(After(l, run), t, u)
  {
    if run != base {
      hide Serve, Gone, IssuedTo;
      GoneStaysGone(l, run.before, base, u, t, at);
      ServeKeepsGone(l, After(l, run.before), run.last, u, t);
    }
  }

  /** Once a user's account is gone, none of the user's access tokens, old or new, authenticates in any continuation. */
  lemma GoneUserIsNeverAuthenticated(
    l: Lifetimes, base: Run<Event>, u: UserId, at: int, run: Run<Event>, t: TokenId, now: int)
    requires Gone(After(l, base), u) && Extends(run, base, at)
    requires t in After(l, run).issued && After(l, run).issued[t].user == u
    ensures !Authenticates(After(l, run), t, now)
  {
    hide Extends, After;
    GoneStaysGone(l, run, base, u, t, at);
  }

  /**
   Refreshing does not look at the account: the token of a user who is gone still rotates.
   But the access token it yields is this user's, and neither it nor any other token of the
   user, however often the refresh token is rotated again, authenticates in any continuation.
   */
  lemma RefreshAfterRemovalYieldsNothing(
    l: Lifetimes, before: Run<Event>, t: TokenId, at: int, run: Run<Event>, now: int)
    requires Valid(After(l, before).refresh, t, at) && !Present(After(l, before), After(l, before).refresh[t].user)
    requires Extends(run, Then(before, Event(at, Refresh(t))), at)
    ensures Grants(After(l, before), Event(at, Refresh(t)))
    ensures var s, u := After(l, run), After(l, before).refresh[t].user;
            && IssuedTo(s, After(l, before).nextId, u)
            && forall a :: a in s.issued && s.issued[a].user == u ==> !Authenticates(s, a, now)
  {
    var s, e := After(l, before), Event(at, Refresh(t));
    var u, base := s.refresh[t].user, Then(before, e);
    RunIsConsistent(l, before);
    UserGivenOut(s.refresh, s.nextId, t);
    RefreshIssues(l, s, e);
    ServeKeepsGone(l, s, e, u, t);
    hide Extends, Consistent, Authenticates, Serve, Gone, IssuedTo, Valid;
    GoneStaysGone(l, run, base, u, s.nextId, at);
    forall a | a in After(l, run).issued && After(l, run).issued[a].user == u
      ensures !Authenticates(After(l, run), a, now)
    {
      GoneUserIsNeverAuthenticated(l, base, u, at, run, a, now);
    }
  }

  lemma RefreshIssues(l: Lifetimes, s: Store, e: Event)
    requires e.request.Refresh? && Grants(s, e)
    ensures IssuedTo(Serve(l, s, e), s.nextId, s.refresh[e.request.token].user)
  {
  }

  // ---------------------------------------------------------------- the token tables

  const BATCH := 1000

  class TokenTables {
    const lifetimes: Lifetimes
    var users: map<UserId, User>
    var issued: map<TokenId, Access>
    var revoked: map<TokenId, Row>
    var refresh: map<TokenId, Row>
    var resets: map<TokenId, Row>
    var nextId: nat

    function State(): Store
      reads this
    {
      Store(users, issued, revoked, refresh, resets, nextId)
    }

    constructor (lifetimes: Lifetimes)
      ensures State() == NEW_STORE && this.lifetimes == lifetimes
    {
      this.lifetimes := lifetimes;
      users, issued, revoked, refresh, resets, nextId := map[], map[], map[], map[], map[], 0;
    }

    method CreateAccessToken(u: UserId, now: int) returns (t: TokenId)
      modifies this`issued, this`nextId
      ensures t == old(nextId) && State() == IssueAccess(old(State()), u, now + lifetimes.access, false)
    {
      t := nextId;
      issued := issued[t := Access(u, now + lifetimes.access, false)];
      nextId := nextId + 1;
    }

    method CreateRefreshToken(u: UserId, now: int) returns (t: TokenId)
      modifies this`refresh, this`nextId
      ensures t == old(nextId) == nextId - 1
      ensures refresh == old(refresh)[t := Row(u, now + lifetimes.refresh)]
    {
      t := nextId;
      refresh := refresh[t := Row(u, now + lifetimes.refresh)];
      nextId := nextId + 1;
    }

    /** Consume a refresh token: its row goes whether it is accepted or has expired. */
    method ValidateRefreshToken(t: TokenId, now: int) returns (user: Option<UserId>)
      modifies this`refresh
      ensures user == if Valid(old(refresh), t, now) then Some(old(refresh)[t].user) else None
      ensures refresh == old(refresh) - {t}
    {
      if t !in refresh {
        return None;
      }
      var row := refresh[t];
      refresh := refresh - {t};
      return if now > row.expires then None else Some(row.user);
    }

    method ValidateResetToken(t: TokenId, now: int) returns (user: Option<UserId>)
      modifies this`resets
      ensures user == if Valid(old(resets), t, now) then Some(old(resets)[t].user) else None
      ensures resets == old(resets) - {t}
    {
      if t !in resets {
        return None;
      }
      var row := resets[t];
      resets := resets - {t};
      return if now > row.expires then None else Some(row.user);
    }

    method RevokeRefreshTokens(u: UserId) returns (count: nat)
      modifies this`refresh
      ensures refresh == WithoutUser(old(refresh), u)
      ensures count == |old(refresh)| - |refresh|
    {
      var kept := WithoutUser(refresh, u);
      SubmapIsSmaller(kept, refresh);
      count := |refresh| - |kept|;
      refresh := kept;
    }

    /** The user an access token stands for, if it is accepted. */
    method GetCurrentUser(t: TokenId, now: int) returns (user: Option<UserId>)
      ensures user == if Authenticates(State(), t, now) then Some(issued[t].user) else None
    {
      if t !in issued || issued[t].expires <= now || issued[t].pending {
        return None;
      }
      if t in revoked {
        return None;
      }
      var u := issued[t].user;
      if u !in users || users[u].deleted || !users[u].active {
        return None;
      }
      return Some(u);
    }

    /** The refresh route: a new pair of tokens for a good refresh token; otherwise everything is rolled back. */
    method RefreshTokens(t: TokenId, now: int) returns (ok: bool)
      modifies this
      ensures ok <==> Grants(old(State()), Event(now, Refresh(t)))
      ensures State() == Serve(lifetimes, old(State()), Event(now, Refresh(t)))
    {
      var before := refresh;
      var user := ValidateRefreshToken(t, now);
      if user.None? {
        refresh := before;
        return false;
      }
      var a := CreateAccessToken(user.value, now);
      var r := CreateRefreshToken(user.value, now);
      return true;
    }

    /**
     Logging out: a token to revoke that does not decode, or that has a row already, raises
     before anything is stored.
     */
    method LogOut(c: Credentials, now: int) returns (ok: bool)
      modifies this
      ensures ok <==> Grants(old(State()), Event(now, Logout(c)))
      ensures State() == Serve(lifetimes, old(State()), Event(now, Logout(c)))
    {
      var token := c.cookie;
      if c.header.Some? {
        token := Some(c.header.value.token);
      } else if !c.csrfOk {
        return false;
      }
      if token.None? {
        return false;
      }
      var user := GetCurrentUser(token.value, now);
      if user.None? {
        return false;
      }
      var again := if c.header.Some? && c.header.value.exact then token else c.cookie;
      if again.Some? {
        if again.value !in issued || issued[again.value].expires <= now || again.value in revoked {
          return false;
        }
        revoked := revoked[again.value := Row(user.value, issued[again.value].expires)];
      }
      var count := RevokeRefreshTokens(user.value);
      return true;
    }

    method ResetPasswordWith(t: TokenId, now: int) returns (ok: bool)
      modifies this
      ensures ok <==> Grants(old(State()), Event(now, ResetPassword(t)))
      ensures State() == Serve(lifetimes, old(State()), Event(now, ResetPassword(t)))
    {
      var before := resets;
      var user := ValidateResetToken(t, now);
      if user.None? || user.value !in users || users[user.value].deleted {
        resets := before;
        return false;
      }
      var count := RevokeRefreshTokens(user.value);
      return true;
    }

    /** Delete the expired rows of the three tables, a batch at a time. */
    method CleanUp(now: int) returns (total: nat)
      modifies this
      ensures State() == Serve(lifetimes, old(State()), Event(now, Cleanup))
      ensures total == |old(revoked)| + |old(refresh)| + |old(resets)| - |revoked| - |refresh| - |resets|
    {
      var n;
      revoked, total := Sweep(revoked, now);
      refresh, n := Sweep(refresh, now);
      total := total + n;
      resets, n := Sweep(resets, now);
      total := total + n;
    }

    static method Sweep(table: map<TokenId, Row>, now: int) returns (rest: map<TokenId, Row>, count: nat)
      ensures rest == Unexpired(table, now)
      ensures count == |table| - |rest|
    {
      rest, count := table, 0;
      while true
        invariant Unexpired(rest, now) == Unexpired(table, now)
        invariant count == |table| - |rest|
        decreases |rest|
      {
        var expired := set t | t in rest && rest[t].expires < now;
        if expired == {} {
          assert forall t :: t in rest ==> t !in expired;
          break;
        }
        var batch := FirstOf(expired, BATCH);
        DropRows(rest, batch);
        count := count + |batch|;
        rest := rest - batch;
      }
    }

    /** Some non-empty batch of at most `limit` rows. */
    static method FirstOf(ids: set<TokenId>, limit: nat) returns (batch: set<TokenId>)
      requires ids != {} && limit > 0
      ensures batch <= ids && batch != {} && |batch| <= limit
    {
      batch := {};
      while |batch| < limit && batch != ids
        invariant batch <= ids && |batch| <= limit
        decreases limit - |batch|
      {
        var t :| t in ids && t !in batch;
        batch := batch + {t};
      }
    }
  }

  lemma SubmapIsSmaller(a: map<TokenId, Row>, b: map<TokenId, Row>)
    requires a.Keys <= b.Keys
    ensures |a| <= |b|
  {
    SubsetIsSmaller(a.Keys, b.Keys);
  }

  lemma DropRows(table: map<TokenId, Row>, batch: set<TokenId>)
    requires batch <= table.Keys
    ensures |table - batch| == |table| - |batch|
  {
    assert (table - batch).Keys == table.Keys - batch;
    assert |table.Keys - batch| == |table.Keys| - |batch|;
  }
}
