# CarbonScope: a verified model of its stateful and arithmetic core

The modules model the parts of the carbon-accounting platform that keep state across
requests, and the arithmetic that spans several of its components, and prove what they
promise. Each state machine is a step function on a value; its theorems are about every
run; and a class with the program's own fields, whose methods change them in place, is
proved to take exactly those steps.

| file | what it models |
|---|---|
| `CreditLedger`, `LedgerTransactions`, `LedgerProgress` | the append-only credit ledger, alone and under concurrent transactions |
| `Billing`, `BillingHistory` | plans, usage, manual grants, the marketplace and the monthly reset on that ledger |
| `CircuitBreakers`, `Consensus` | the two breakers of the subnet bridge; choosing one of the miners' answers |
| `RateLimiter` | the miner's sliding window per hotkey in an LRU dictionary |
| `LoginLockout`, `TokenLifecycle`, `TokenLiveness` | the login lock; access, refresh and reset tokens with their cleanup job |
| `WebhookRetries` | automatic and manual retries of a delivery |
| `EmissionFactors`, `GapFilling`, `Protocol`, `Estimator` | the miner's estimate and the platform's second copy of it |
| `ActivityEmissions`, `ConfidenceFields`, `AnswerRules` | what both say about the data they are given |
| `FillingTwice`, `FillingOrder` | when filling gaps again, or in another order, makes a difference |
| `Compliance`, `Scoring`, `ScoringRules`, `Validator` | the checks a response goes through, its score, running scores and weights |
| `HonestMajority` | a subnet query from the estimate through scoring to the selected answer |
| `EventBus`, `FactorCache` | server-sent events; the dataset cache |
| `SlidingWindow`, `FiniteSets`, `Dictionaries`, `Rounding`, `Runs`, `Outcomes` | what they share |

`dafny verify dfyconfig.toml` checks everything.

## Assumptions

- Time is a whole number of clock ticks that does not decrease from one event to the next.
- Plans, marketplace, resets, tokens, logins and breakers are modelled in serial runs; the
  ledger's grants and deductions in every interleaving.
- A company's subscription row exists before its lock is taken. What happens otherwise is
  `LedgerTransactions.RaceLosesAnUpdate`, and `BalancesAgreeIffSubscribed` says that this
  is exactly the condition. A subscription created by its first use is inserted before the
  ledger is touched, inside the same request.
- `created_at` strictly increases per company, because the newest row is chosen by it.
- An error raised in a request rolls the request back; manual grants are positive. Purging a
  user deletes the user's token rows, as their foreign keys cascade.
- A miner is its position in a fixed list of axons.
- Random tokens never repeat and signed tokens cannot be made up; hashes do not collide.
- Amounts, factors, weights and scores are exact reals; rounding is to the nearest
  multiple with ties to even. Factor tables are arbitrary but non-negative, contain the
  entries the code falls back to, and map states to known subregions. Names of regions,
  fuels and industries are already normalised.
- A dataset file that is there from the start is the first write of a run.

## Where the code and its documentation differ

- The scoring table in the repository's README lists four axes with other weights and a
  latency axis; the model follows `carbonscope/scoring.py:15-30`.
- The same README says that miners with a zero score receive weight zero. They do unless
  all scores are zero (`Validator.ZeroWeightIff`).
- `estimate_emissions_local` is described as using the miner's logic directly. Its totals
  agree (`Estimator.ImplementationsAgree`), its confidence does not: only the miner fills in
  a fuel type and weighs how many fields have a value (`Estimator.ConfidencesAgreeIff`,
  `Estimator.ConfidencesDiffer`).
- `load_factors` is described as re-reading a file that has changed. It does so unless a
  reload parsed one content and hashed another (`FactorCache.AlwaysKeepsUpIff`); after that
  it keeps serving the old content for as long as the file stays the same
  (`FactorCache.TornReloadIsServedForever`).
- `estimate_emissions` is described as raising a RuntimeError when it finds no answer. A
  miner's null total raises a TypeError instead, for all miners' answers at once, and no
  breaker counts it (`CircuitBreakers.UnsuccessfulBoundedIff`,
  `HonestMajority.HonestMajorityDecides`).
- Logout is described as revoking the current access token. It revokes the token it finds
  in a header that starts with exactly "Bearer ", else the cookie's, while authentication
  takes the header's in other spellings such as "bearer" too. When the two differ the
  current token lives on (`TokenLifecycle.LogoutEndsTokenIff`), and a cookie's token that
  has expired makes the request raise (`TokenLifecycle.OtherSpelling`).
- Failed webhook deliveries are described as retried. A failed first attempt compares
  counters that have no value before they are stored and raises, so that nothing is stored;
  only a manual retry starts automatic ones (`WebhookRetries.RetriedOnlyAfterManual`).
- The lockout of a login does not restart the count: after it expires a single failure
  locks the account again (`LoginLockout.OneFailureLocksAgain`).

## Model

| member | source | states |
|---|---|---|
| CreditLedger.BalanceIsTotal | api/services/subscriptions.py:133-142 | On a chained ledger the newest row's balance is the sum of all the company's amounts, and not negative. |
| CreditLedger.PostKeepsChain | api/services/subscriptions.py:179-208 | A grant or deduction that succeeds keeps every company's rows a chain, adds its signed amount to its own company and nothing to any other. |
| CreditLedger.PostAllKeepsChain | api/services/subscriptions.py:179-208 | Any list of operations that succeed one after the other leaves a chain whose balances grew by exactly the amounts of each company. |
| CreditLedger.PostAllElsewhere | api/services/subscriptions.py:145-208 | Operations depend only on the rows of the companies they touch: on any table that agrees there they write the same rows. |
| CreditLedger.PostAllConcat | api/services/subscriptions.py:179-208 | Carrying out two lists of operations one after the other is carrying out their concatenation, errors included. |
| LedgerTransactions.EveryInterleavingIsSerial | api/services/subscriptions.py:145-208 | For every interleaving of lock, read, append, commit and rollback steps of any number of transactions: the committed table is what the committed operations leave in commit order, each company's rows are a chain, and its balance is the sum of its amounts and of its committed operations; no update is lost. |
| LedgerTransactions.NoStaleBalance | api/services/subscriptions.py:145-208 | Between a transaction's read and its append the balance it read stays the committed balance plus its own pending operations. |
| LedgerTransactions.RaceLosesAnUpdate | api/services/subscriptions.py:165-191 | Without a subscription row to lock, two interleaved grants of 10 leave a balance of 10 over rows that sum to 20. |
| LedgerTransactions.BalancesAgreeIffSubscribed | api/services/subscriptions.py:165-208 | Balance and row sum agree in every run on a company if and only if the company has a subscription row. |
| LedgerProgress.TransactionCompletes | api/services/subscriptions.py:145-208 | A transaction on a subscribed company whose lock is free completes, whatever the others do between its steps: its commit adds exactly the one row, on top of the balance that stood when it took the lock; a deduction beyond that balance writes nothing; either way the lock is free again. |
| LedgerProgress.OperationIsCarriedOut | api/services/subscriptions.py:145-208 | Up to the commit: the lock is got, the balance read is the one that stood then, the row is appended to it, and no other transaction touches the company's rows. |
| Billing.MutateBooks | api/services/subscriptions.py:179-208 | A mutation succeeds exactly when the balance allows it, and then changes the figures of its own company by its amount and nothing else on the platform. |
| Billing.GetOrCreateFacts | api/services/subscriptions.py:67-94 | Looking up a subscription always succeeds; a missing one becomes a free plan with 100 credits, an existing one changes nothing. |
| Billing.SwitchPlanFacts | api/services/subscriptions.py:108-130 | Switching plans never fails: an upgrade adds the difference, a downgrade caps the balance, an equal allowance changes only the plan. |
| Billing.DowngradeCapsBalance | api/services/subscriptions.py:122-127 | A downgrade leaves the smaller of the balance and the new allowance. |
| Billing.ResetAllFacts | api/services/scheduler.py:187-212 | A monthly reset leaves each listed company the larger of its balance and its allowance, opens a free plan where there was none, and leaves all other companies as they were. |
| Billing.ResetTwiceIsOnce | api/services/scheduler.py:187-212 | Repeating a reset over the same companies changes nothing. |
| Billing.BuyFacts | api/services/marketplace.py:118-167 | A purchase goes through exactly when the listing is active, not the buyer's own, not bought before and affordable; then the figures move by the price. |
| Billing.PurchaseConservesCredits | api/services/marketplace.py:118-167 | A purchase changes nothing or moves exactly the price from buyer to seller: all companies' credits together stay the same. |
| Billing.BalanceWithinAllowance | api/services/subscriptions.py:67-130 | In every serial run of subscriptions, plan changes, usage, grants, listings, purchases and resets: the balance is the row sum, is not negative, and is at most the present plan's allowance plus the manual and sale credits received. |
| Billing.MarketInvariant | api/services/marketplace.py:118-167 | In every such run no company bought a listing twice or its own, each purchase has its listing's price, and revenue equals the booked sales. |
| BillingHistory.UsageIsCharged | api/services/subscriptions.py:58-64 | Usage is served if and only if its price (10, 5, 5, 3 or 0 credits) is available after the lookup; then exactly that is taken and booked as usage, and no other figure or company moves; otherwise nothing changes. |
| BillingHistory.FreeUseIsNotBooked | api/services/subscriptions.py:217-223 | An operation without a price leaves a subscribed company's platform as it is. |
| BillingHistory.GrantIsBooked | api/routes/billing_routes.py:121-141 | A manual grant goes through exactly for a positive amount, which is added to balance and credits received. |
| BillingHistory.PlanIsChanged | api/services/subscriptions.py:103-130 | The three plan names give allowances of 100, 1000 and 10000; a larger one adds the difference and a smaller one caps the balance, starting from a free plan where there was none. |
| BillingHistory.StatementOfAccount | api/services/subscriptions.py:179-223 | In every run: the usage booked for a company is minus the prices of its operations that were served, what it received are its manual grants and sales, and sales and purchases are booked at the prices first offered. |
| BillingHistory.ListingIsHistory | api/services/marketplace.py:34-73 | In every run a listing is what was first offered under its id, and is for sale until its seller withdraws it. |
| BillingHistory.WithdrawnIsNeverSold | api/services/marketplace.py:118-207 | After its seller has withdrawn a listing no continuation of the run sells it. |
| Billing.BillingService.GrantCredits | api/services/subscriptions.py:179-191 | The service's grant leaves the state of the ledger mutation, or the old one when the table's constraint refuses the row. |
| Billing.BillingService.DeductCredits | api/services/subscriptions.py:194-208 | The service's deduction leaves the state of the ledger mutation, or raises and changes nothing. |
| Billing.BillingService.AddRow | api/models.py:432-446 | A row is inserted exactly when its balance is not negative and it is newer than the company's rows. |
| Billing.BillingService.GetOrCreateSubscription | api/services/subscriptions.py:67-94 | Refines the subscription lookup on the service's tables. |
| Billing.BillingService.ChangePlanTo | api/services/subscriptions.py:103-130 | Refines the plan change; an unknown plan raises and changes nothing. |
| Billing.BillingService.CheckCreditAndDeduct | api/services/subscriptions.py:217-223 | Refines charging an operation; when credits are short everything is rolled back, a new subscription included. |
| Billing.BillingService.AdminGrantCredits | api/routes/billing_routes.py:121-141 | Refines the manual grant. |
| Billing.BillingService.WithdrawListing | api/services/marketplace.py:188-207 | Only the seller's own active listing is withdrawn. |
| Billing.BillingService.PurchaseListing | api/services/marketplace.py:118-167 | Refines the purchase, rolled back as a whole when the deduction raises. |
| Billing.BillingService.ResetCompany | api/services/scheduler.py:200-210 | Refines the reset of one company inside its savepoint. |
| Billing.BillingService.ResetMonthly | api/services/scheduler.py:187-212 | The batch loop visits every company once: it refines the reset of the whole list. |
| CircuitBreakers.GlobalWindowBound | api/services/subnet_bridge.py:73-109 | Between successes, any half-open 60 s window of any sequential run holds at most 5 queries that end in a RuntimeError. |
| CircuitBreakers.UnsuccessfulWindowBound | api/services/subnet_bridge.py:160-169 | Counting every admitted query that does not succeed, such a window holds at most 5 and however many raise another error in it. |
| CircuitBreakers.CrashedIffMalformed | api/services/subnet_bridge.py:213-236 | A query whose replies arrive raises another error if and only if some queried miner's valid reply has a null among its totals. |
| CircuitBreakers.OutcomeIff | api/services/subnet_bridge.py:173-240 | A query succeeds exactly when the replies arrive and of the queried miners' some is usable and none malformed; it fails exactly when none is usable, a RuntimeError is raised or nobody can be queried. |
| CircuitBreakers.HandledIff | api/services/subnet_bridge.py:213-238 | The replies recorded are those of the queried miners with no malformed reply before them. |
| CircuitBreakers.CrashesGoUncounted | api/services/subnet_bridge.py:160-169 | However often one miner's null makes a query raise: every such query is admitted, and both breakers stay as they were. |
| CircuitBreakers.UnsuccessfulBoundedIff | api/services/subnet_bridge.py:160-169 | The bound on all unsuccessful queries holds in every sequential run in which only miners at given positions can reply with a null, if and only if there are no such positions. |
| CircuitBreakers.RefusedOnlyAfterRecentFailures | api/services/subnet_bridge.py:93-103 | A query is refused only within 60 s of the newest of at least five failures, and a refusal changes no state, so refusals never extend an outage. |
| CircuitBreakers.MinerWindowBound | api/services/subnet_bridge.py:46-70 | Between its valid replies, any half-open 120 s window holds at most 3 recorded failures of one miner position; a reply with a null is recorded as valid before its scoring raises. |
| CircuitBreakers.PassedOverIffRecentFailures | api/services/subnet_bridge.py:60-70 | A position is passed over if and only if its newest failure is the third or later in a row and less than 120 s old. |
| CircuitBreakers.SubnetBridge.EstimateEmissions | api/services/subnet_bridge.py:160-169 | The bridge's call leaves the breakers of the model's step and reports its outcome. |
| CircuitBreakers.SubnetBridge.QuerySubnet | api/services/subnet_bridge.py:189-239 | Filtering, querying and recording the replies leaves the per-miner breakers of the model's step, and ends as the replies determine: raising at the first malformed one, else succeeding with any valid one. |
| CircuitBreakers.SubnetBridge.ActiveMiners | api/services/subnet_bridge.py:190-196 | The loop selects, in order, exactly the positions whose breakers are not open. |
| CircuitBreakers.SubnetBridge.RecordAnswers | api/services/subnet_bridge.py:213-236 | The loop records each reply once, as success or failure of its own position, and stops at the first whose scoring raises. |
| CircuitBreakers.SubnetBridge.IsGlobalOpen | api/services/subnet_bridge.py:93-109 | Asking the global breaker resets an expired one and changes nothing else. |
| CircuitBreakers.SubnetBridge.RecordGlobalFailure | api/services/subnet_bridge.py:80-86 | Recording a failure counts it, and restarts the timeout from the fifth on. |
| CircuitBreakers.SubnetBridge.IsMinerOpen | api/services/subnet_bridge.py:60-70 | Answers for one position without changing it; an expired breaker stays counted. |
| CircuitBreakers.SubnetBridge.RecordMinerFailure | api/services/subnet_bridge.py:51-57 | Recording a miner's failure counts it, and restarts the timeout from the third on. |
| Consensus.MajorityHoldsMedian | api/services/subnet_bridge.py:318-319 | If strictly more than half of the totals lie in an interval, so does the median, whatever the others report. |
| Consensus.RobustSelection | api/services/subnet_bridge.py:317-332 | With three or more responses, a strict majority in [lo, hi] of which one has quality 0.3 (or none anywhere has): the selected total lies in [2lo-hi, 2hi-lo]. |
| Consensus.BandHoldsIff | api/services/subnet_bridge.py:317-332 | Given the qualities of three or more responses and a strict majority of places with totals in [lo, hi]: the selected total lies in [2lo-hi, 2hi-lo] for all totals, those of the others arbitrary, if and only if some place inside has quality 0.3 or none at all has. |
| Consensus.BandIsTight | api/services/subnet_bridge.py:317-332 | For every interval some majority in it lets the far end of that band be selected. |
| Consensus.QualityOverridesMajority | api/services/subnet_bridge.py:322-325 | For every list of three or more responses of which some qualify: if all that qualify report the same total, that total is selected, however many the others are. |
| Consensus.OneQualifiedBeatsMajority | api/services/subnet_bridge.py:322-332 | A single qualified answer is selected against any majority of unqualified ones in any interval, whatever its total. |
| Consensus.SelectionQuality | api/services/subnet_bridge.py:322-332 | The selected response has quality 0.3 whenever any response has. |
| Consensus.ClosestFacts | api/services/subnet_bridge.py:328-331 | The selected candidate is the first of those closest to the median. |
| Consensus.FewSelectTheBest | api/services/subnet_bridge.py:243-246 | With one or two responses the first of the best scored is selected. |
| Consensus.SelectedIsClosest | api/services/subnet_bridge.py:317-332 | With three or more a response that may be selected is, by quality 0.3 or because none has it, and none of those is closer to the median. |
| Consensus.MedianFacts | api/services/subnet_bridge.py:318-319 | For every ordered rearrangement of the totals the median is the one in the middle, or half-way between the two there. |
| Consensus.AgreementIsShare | api/services/subnet_bridge.py:251-260 | A response alone, and a selected total of zero, agree fully; otherwise agreement times the number of responses is a hundred for each place whose total is from 80 to 120 per cent of the selected one. |
| Consensus.MajorityShowsInAgreement | api/services/subnet_bridge.py:251-260 | A close enough majority is reported: more than half of the responses agree before rounding, at least 50.0 per cent are reported, and more with fewer than a thousand responses. |
| HonestMajority.HonestMajorityDecides | api/services/subnet_bridge.py:208-248 | When strictly more than half of three or more valid replies to a valid questionnaire come from miners that run this estimator, the estimator's total is selected if and only if no valid reply has a null among its totals; with one the query raises. |
| HonestMajority.HonestMajorityAgreesWithLocal | api/services/subnet_bridge.py:335-462 | And under the same condition the selected total is the one the platform's own estimate of the questionnaire, without the miner's defaults, reports. |
| HonestMajority.FewRepliesSelectTheBest | api/services/subnet_bridge.py:213-248 | With one or two usable replies and none malformed, the selected response comes from one of them and no other scores higher. |
| HonestMajority.RaisedIffMalformed | api/services/subnet_bridge.py:213-236 | For all replies: scoring them raises if and only if one of the valid ones is malformed; otherwise every valid reply is scored once. |
| HonestMajority.OneNullRaises | api/services/subnet_bridge.py:226-234 | One reply of a null scope, anywhere among any replies, makes the query raise. |
| HonestMajority.BreakersSeeTheOutcome | api/services/subnet_bridge.py:160-236 | The breakers record a success, a failure or neither exactly as the query selects a response, finds none or raises. |
| HonestMajority.AskMiners | api/services/subnet_bridge.py:208-246 | The loop over the replies computes that outcome, with its skips, its early exit and the selection. |
| HonestMajority.HonestIsJudged | api/services/subnet_bridge.py:226-236 | An honest reply is valid and scorable, reaches the quality threshold of the selection and carries the estimator's total. |
| RateLimiter.WindowBound | neurons/miner.py:173-193 | In every run with a monotone clock, while a hotkey stays tracked any closed window holds at most the allowed number of its accepted requests; its deque is sorted and never longer. |
| RateLimiter.AcceptedIffWindowHasRoom | neurons/miner.py:185-191 | A call is accepted if and only if fewer than the allowed number of accepted calls since tracking lie in the closed window that ends with it. |
| RateLimiter.OrderIsRecency | neurons/miner.py:175-184 | The dictionary's order is the order of last calls, accepted or not, cut to the newest 'capacity' callers. |
| RateLimiter.ForgottenOnlyAfterCapacityOthers | neurons/miner.py:175-184 | A hotkey is tracked if and only if it has called and fewer than 'capacity' distinct others have called since; never more than 'capacity' are tracked. |
| RateLimiter.WindowBoundUnconditional | neurons/miner.py:173-193 | With no more callers than the capacity the window bound holds for all accepted calls of the run. |
| RateLimiter.ForgottenStartsAfresh | neurons/miner.py:175-184 | After 'capacity' other callers a hotkey is let through whatever its window holds. |
| RateLimiter.QuotaExceeded | neurons/miner.py:173-193 | A run of one more caller than the capacity in which one window holds one accepted request too many. |
| RateLimiter.BoundHoldsIff | neurons/miner.py:173-193 | The window bound covers all accepted requests of every monotone run by a set of callers if and only if they are no more than the capacity. |
| RateLimiter.RequestLimiter.Blacklist | neurons/miner.py:163-193 | Unregistered and non-validator callers are rejected without touching the limiter; the others get the limiter's verdict and leave its next state. |
| RateLimiter.RequestLimiter.Limit | neurons/miner.py:173-193 | Track, expire and decide on the dictionary in place refine one step of the model. |
| RateLimiter.RequestLimiter.Track | neurons/miner.py:175-184 | The eviction loop refines moving a caller to the end, or adding it after evicting the oldest. |
| RateLimiter.RequestLimiter.Expire | neurons/miner.py:184-187 | The loop over the deque removes exactly the entries older than the window. |
| LoginLockout.FailureWindowBound | api/routes/auth_routes.py:206-237 | Between accepted logins any half-open window of the lockout length holds at most the tolerated number of evaluated failures. |
| LoginLockout.RefusedIffRecentFailures | api/routes/auth_routes.py:210-236 | An attempt is refused exactly when enough failures are on record since the last accepted login and the newest is less than the lockout old, which changes nothing; any other is accepted exactly for the right credentials. |
| LoginLockout.OneFailureLocksAgain | api/routes/auth_routes.py:221-228 | The counter is not reset when a lock expires: the next failure locks the account again at once. |
| LoginLockout.UserAccount.Login | api/routes/auth_routes.py:206-237 | The account's counter and lock after a login attempt, and its verdict, are the model's. |
| TokenLifecycle.CleanupIsUnobservable | api/services/scheduler.py:254-270 | However often and whenever expired rows are deleted, every later request is granted exactly when it would have been without any deletion. |
| TokenLifecycle.LoggedOutTokenIsNeverAccepted | api/auth.py:138-156 | After a logout whose search finds the token that authenticated again, no continuation of the run ever accepts it. |
| TokenLifecycle.LogoutEndsTokenIff | api/routes/auth_routes.py:502-520 | For every header, cookie and CSRF flag: after logging out the token that authenticates is refused in every continuation if and only if the token the route searches for is the same one, which it is unless the scheme is in another spelling and the cookie holds no copy of it. |
| TokenLifecycle.OtherSpelling | api/routes/auth_routes.py:502-520 | With the scheme in another spelling beside a cookie with another token: the request goes through exactly when the cookie's token decodes and is not revoked yet, and then revokes that one; otherwise it raises and changes nothing. The header's token authenticates as before in both cases. |
| TokenLifecycle.RevokedTokenEndsIff | api/models.py:527-535 | A valid token revoked by a logout is refused in every continuation if and only if it belongs to the user who logged out: the revocation is in that user's name and goes with that user. |
| TokenLifecycle.AcceptedAtMostOnce | api/auth.py:103-126 | A refresh or reset token that was accepted is not accepted again in any continuation. |
| TokenLifecycle.EarlierRefreshTokensAreRevoked | api/auth.py:129-135 | After a logout, password change or reset no refresh token the user had before is ever accepted. |
| TokenLifecycle.RefreshAfterRemovalYieldsNothing | api/routes/auth_routes.py:466-473 | Refreshing does not look at the account: a removed user's token still rotates, but in every continuation neither the new access token nor any other of that user authenticates. |
| TokenLifecycle.GoneUserIsNeverAuthenticated | api/deps.py:76-84 | Once an account is removed or purged, none of the user's access tokens authenticates in any continuation. |
| TokenLiveness.RefreshTokenIsAcceptedIff | api/auth.py:90-135 | A login without second factor, its completion and a refresh each hand out a refresh token never given out before; in every continuation it is accepted if and only if it has not expired and no request since has used it, logged the user out, changed or reset the password, or purged the user. |
| TokenLiveness.AccessTokenAuthenticatesIff | api/deps.py:52-84 | They hand out an access token too; in every continuation it authenticates if and only if it has not expired, no logout since has revoked it other than in the name of a user purged meanwhile, and its user could authenticate and has not been removed. |
| TokenLiveness.PendingTokenCompletesIff | api/deps.py:87-119 | A login with second factor hands out a token that never authenticates, and completes the login with a right code if and only if it has not expired and the user has not been removed. |
| TokenLiveness.ResetTokenIsAcceptedIff | api/auth.py:162-194 | A password-reset token is accepted if and only if it has not expired, has not been used, and the user has not been removed. |
| TokenLiveness.CleanupDeletesExpired | api/services/scheduler.py:254-270 | Cleaning up deletes exactly the expired rows of the three tables. |
| TokenLiveness.RegisteredUserIsServedIff | api/routes/auth_routes.py:151-260 | A newly registered user can log in and ask for a reset in exactly the continuations that have not removed the account. |
| TokenLifecycle.TokenTables.ValidateRefreshToken | api/auth.py:103-126 | A token in the table and not past its expiry is consumed and its user returned; an expired row is deleted and refused. |
| TokenLifecycle.TokenTables.ValidateResetToken | api/auth.py:176-194 | The same for reset tokens. |
| TokenLifecycle.TokenTables.RevokeRefreshTokens | api/auth.py:129-135 | Deletes exactly the user's refresh tokens. |
| TokenLifecycle.TokenTables.GetCurrentUser | api/deps.py:52-84 | Decoding, revocation and account checks answer exactly when the token authenticates. |
| TokenLifecycle.TokenTables.RefreshTokens | api/routes/auth_routes.py:453-483 | Refines the refresh request: the old token goes, a new pair is issued. |
| TokenLifecycle.TokenTables.LogOut | api/routes/auth_routes.py:495-520 | Refines the logout request: which token authenticates and which is revoked are taken from the header and the cookie in the route's order; one that cannot be revoked raises before anything is stored. |
| TokenLifecycle.TokenTables.ResetPasswordWith | api/routes/auth_routes.py:550-570 | Refines the password reset; an unknown user rolls the consumed token back. |
| TokenLifecycle.TokenTables.CleanUp | api/services/scheduler.py:254-270 | The batch loops over the three tables delete exactly the expired rows. |
| WebhookRetries.AttemptsAreBounded | api/services/webhooks.py:289-354 | For every stored delivery and every pattern of outcomes: the automatic attempts number at most what the scheduled retry has left of the limit plus one for each manual retry; with nothing scheduled none without a manual retry, the first of which starts over with what is left. Once that many were made nothing is scheduled. |
| WebhookRetries.BoundIsReached | api/services/webhooks.py:289-415 | For every stored delivery and number of manual retries some run makes exactly that many automatic attempts. |
| WebhookRetries.RunInvariant | api/services/webhooks.py:289-415 | In every run attempts made plus attempts still possible are within that bound, and the retry count grows by the number of attempts. |
| WebhookRetries.PassClearsFinishedDeliveries | api/services/webhooks.py:312-349 | A pass leaves a retry scheduled if and only if the webhook is active, the attempt met an error or a status of 400 or more, and the limit is not used up, at least a second ahead; every pass uses up potential. |
| WebhookRetries.RetryDelay | api/services/webhooks.py:28-34 | Every delay is between one second and 33 seconds. |
| WebhookRetries.RetryDelayByAttempt | api/services/webhooks.py:28-34 | One, five and then always thirty seconds, and the jitter's part of a tenth more. |
| WebhookRetries.DispatchEvent | api/services/webhooks.py:182-250 | The first attempt stores a delivery exactly when comparing its counters does not raise, in the state of the model's step. |
| WebhookRetries.DispatchedFacts | api/services/webhooks.py:182-221 | A delivery that is stored is marked by its status, has the counters set or the declared 0 and 3, and a retry exactly after a failure with retries left. |
| WebhookRetries.DispatchStoresIff | api/services/webhooks.py:182-221 | A delivery is stored exactly when its first attempt succeeds or both counters are set before it. Dispatching leaves them unset, so a failed first attempt raises; with the declared column values it would schedule a retry. |
| WebhookRetries.RetriedOnlyAfterManual | api/services/webhooks.py:182-415 | A delivery stored by dispatching is attempted automatically in some run with m manual retries if and only if m > 0, and at most m + 1 times; with the declared values it would be 3 + m after a failed first attempt. |
| WebhookRetries.WebhookDelivery.Process | api/services/webhooks.py:306-349 | Refines the retry job's handling of one delivery. |
| WebhookRetries.WebhookDelivery.RetryByHand | api/services/webhooks.py:382-415 | Refines the manual retry, which schedules another one after every failure. |
| WebhookRetries.ProcessPendingRetries | api/services/webhooks.py:289-354 | One pass handles exactly the first 50 due deliveries, leaves all others alone and returns how many were attempted. |
| WebhookRetries.DuePlacesExact | api/services/webhooks.py:294-302 | The deliveries a pass selects from are exactly the due ones. |
| EmissionFactors.Emitted | carbonscope/emission_factors/scope1.py:50-62 | Every calculator's core: for a positive amount within half a hundredth of amount times factor, a non-negative whole number of hundredths, zero exactly when the product rounds to zero. |
| EmissionFactors.CertificatesLower | carbonscope/emission_factors/scope2.py:35-73 | More certificates never raise the market-based figure, full cover makes it zero, and without certificates or own factor it equals the location-based one. |
| EmissionFactors.DirectSourcesAreKilograms | carbonscope/emission_factors/scope1.py:19-139 | Every Scope 1 calculator gives non-negative hundredths, fallbacks included. |
| EmissionFactors.EnergyIsKilograms | carbonscope/emission_factors/scope2.py:12-73 | So do the two Scope 2 methods. |
| ActivityEmissions.ReportedScopesAreActivity | carbonscope/emission_factors/scope1.py:46-138 | For every answer of either implementation: the reported Scope 1 is within 0.02 kg of the four amounts times the factors that the tables hold for their names, and Scope 2 within 0.005 kg of the electricity times the region's factor over 1000. |
| ActivityEmissions.ReportedMarketIsActivity | carbonscope/emission_factors/scope2.py:36-73 | The reported market-based figure is within 0.005 kg of the electricity without certificates times the supplier's factor, or the grid's when there is none or a negative one. |
| ActivityEmissions.ReportedCategoriesAreActivity | carbonscope/emission_factors/scope3.py:17-103 | A Scope 3 category whose data come to more than 0.005 kg is reported within 0.005 kg of amount times factor: spend, freight, waste, travel by spend or by head, commuting. |
| ActivityEmissions.GridFactorFound | carbonscope/emission_factors/loader.py:144-172 | The grid factor is that of the subregion, else of the state's subregion, else of the country, else of the group of countries, else the global average. |
| ActivityEmissions.ConvertedGasIsClose | carbonscope/emission_factors/scope1.py:55-62 | Natural gas in therms or kilowatt-hours is converted to cubic metres. |
| ActivityEmissions.VehicleFuelIsClose | carbonscope/emission_factors/scope1.py:88-92 | A vehicle's fuel goes before its distance and is taken as the vehicle's kind of fuel. |
| GapFilling.EstimateIsTypical | carbonscope/emission_factors/scope3.py:132-147 | The estimate for all of Scope 3 is revenue, or else head count, times the industry's average times its Scope 3 share, with 50 and 10 tonnes where it has no average. |
| GapFilling.FilledTotal | carbonscope/emission_factors/scope3.py:148-164 | Before rounding the filled total is max(A, min(E, A + E * missing weight)), for starting sum A and estimate E. |
| GapFilling.FilledTotalIgnoresOrder | carbonscope/emission_factors/scope3.py:155-164 | The order of the industry's categories does not change that total. |
| GapFilling.OrderShowsInCategories | carbonscope/emission_factors/scope3.py:155-164 | A listing and its reordering that give one category different amounts. |
| FillingOrder.OrderIsImmaterialIff | carbonscope/emission_factors/scope3.py:148-164 | Before rounding, every order of the listing gives every category the same amount if and only if A >= E, or A + E * missing weight <= E, or at most one missing category has weight. |
| FillingOrder.FullShares | carbonscope/emission_factors/scope3.py:155-164 | When the estimate covers what is missing, a missing category gets exactly its share E * weight, rounded or not, and every other keeps its amount. |
| GapFilling.PositiveAmountsAreKept | carbonscope/emission_factors/scope3.py:156-157 | Positive entries, and categories the industry does not list, are unchanged. |
| GapFilling.RoundingError | carbonscope/emission_factors/scope3.py:162-164 | The filled amounts add up to the running total but for half a hundredth per filled category. |
| GapFilling.CompletedTotal | carbonscope/emission_factors/scope3.py:109-166 | Gap filling as a whole: the closed form to within half a hundredth per filled category, never above the larger of the start and the estimate by more. |
| GapFilling.NormalisedFacts | carbonscope/emission_factors/scope3.py:127-130 | Normalised weights have the same keys, are not negative and sum to 0 or to 1 within a hundredth. |
| GapFilling.NormalisedKeepsShares | carbonscope/emission_factors/scope3.py:126-130 | Scaling keeps the weights in proportion and happens exactly when their sum is positive and outside 0.99 to 1.01. |
| GapFilling.UnroundedFillingIsIdempotent | carbonscope/emission_factors/scope3.py:155-164 | Without rounding, filling twice is filling once. |
| GapFilling.RoundedFillingIsNotIdempotent | carbonscope/emission_factors/scope3.py:163-163 | With rounding it is not: a concrete filling that a second one changes. |
| FillingTwice.FillingTwiceIsOnceIff | carbonscope/emission_factors/scope3.py:126-164 | For starting sum A, estimate E and missing weight m: rounded filling twice is filling once for every listing that needs no scaling and every detail with these, if and only if A + E * m <= E, or E - A <= 0.01, or m > 1.01, which no such listing has. |
| FillingTwice.SecondFillingChangesNothing | carbonscope/emission_factors/scope3.py:148-164 | So on each listing and detail that meets the condition. |
| FillingTwice.SecondFillingCanChange | carbonscope/emission_factors/scope3.py:126-164 | For all other A, E and m there is a listing that needs no scaling, of sum 1 unless m itself is more, and a detail in whole hundredths if A is, which a second filling changes. |
| FillingTwice.CompletedTwice | carbonscope/emission_factors/scope3.py:109-166 | Under the first two conditions completing a completed detail changes nothing, estimate and normalisation included. |
| FillingTwice.CompletingTwiceIsOnceIff | carbonscope/emission_factors/scope3.py:109-166 | For the whole function: completing twice is completing once for every profile, detail, revenue and number of employees with starting sum A, estimate E and scaled missing weight m, if and only if the same three-way condition holds. |
| GapFilling.FillIndustryDefaults | carbonscope/emission_factors/scope3.py:109-166 | The method with its loop computes the specified completion. |
| GapFilling.FillMissing | carbonscope/emission_factors/scope3.py:151-164 | The loop over the weights computes the specified filling. |
| Estimator.EstimateScope1 | neurons/miner.py:267-304 | The accumulating method returns the sum of the four direct sources and the miner's breakdown, and appends exactly its notes. |
| Estimator.EstimateScope2 | neurons/miner.py:306-333 | Scope 2 is the location-based figure; both methods are listed exactly when there is electricity; the notes appended are exact. |
| Estimator.EstimateScope3 | neurons/miner.py:335-376 | Scope 3 is the sum of the completed categories; filled-in ones are noted, and the notes appended are exact. |
| Estimator.CalcDataCompleteness | carbonscope/utils.py:228-246 | The loop over the field weights computes the rounded share of the weight that is given. |
| Estimator.CompletenessBounds | carbonscope/utils.py:228-246 | Whatever the non-negative weights: between 0 and 1, and 1 when every weighted field is given. |
| ConfidenceFields.FieldEarnsItsWeight | carbonscope/utils.py:228-246 | For every weighting and all data: entering one field that was missing earns exactly that field's weight; without any field nothing is earned. |
| ConfidenceFields.CompletenessIsShare | carbonscope/utils.py:228-246 | Completeness is earned over total weight, to within half a ten-thousandth. |
| ConfidenceFields.FieldIsCounted | neurons/miner.py:233-239 | Entering one field that was missing raises the miner's field count by one, but for the fuel type, and the validator's count always. |
| ConfidenceFields.OtherFieldsAreCounted | neurons/miner.py:233-239 | A leaked amount, certificates, a refrigerant and every further field count one each. |
| ConfidenceFields.ConfidenceIsBlend | neurons/miner.py:238-240 | Five times the miner's confidence is three times completeness plus twice the input ratio, to within the rounding. |
| Estimator.MinerConfidenceBounds | neurons/miner.py:232-240 | The miner's confidence is between 0 and 1. |
| Estimator.Estimate | neurons/miner.py:216-265 | The miner's answer has the specified totals, breakdown, confidence, sources and assumptions. |
| Estimator.Forward | neurons/miner.py:197-208 | A questionnaire that fails validation gets the error answer, every other one the estimate. |
| AnswerRules.AmountIsLimited | neurons/miner.py:51-67 | In an otherwise valid questionnaire each amount is accepted exactly from zero up to its own limit. |
| AnswerRules.MinerNotes | neurons/miner.py:254-256 | The miner's answer states an assumption exactly when it made it, and the standard methodology exactly when it made none; it cites a source exactly when it used it, and the emission factors when there is no other. |
| AnswerRules.LocalNotes | api/services/subnet_bridge.py:433-462 | The platform's answer cites its three databases and states exactly what was lacking. |
| AnswerRules.CategoriesListed | carbonscope/emission_factors/scope3.py:149-150 | Without revenue and employees Scope 3 lists exactly the categories there are data for. |
| AnswerRules.MinerSourcesListed | neurons/miner.py:272-317 | The miner's Scope 1 breakdown lists exactly the sources there is something of, natural gas under stationary combustion. |
| AnswerRules.LocalSourcesListed | api/services/subnet_bridge.py:364-397 | So does the platform's, with natural gas under its own key. |
| Estimator.EstimateLocally | api/services/subnet_bridge.py:359-462 | The platform's copy of the estimate: its totals, its differently keyed breakdown, its confidence, sources and assumptions. |
| Estimator.SumScope1Locally | api/services/subnet_bridge.py:365-394 | Its Scope 1 accumulation. |
| Estimator.SumScope3Locally | api/services/subnet_bridge.py:406-431 | Its Scope 3 accumulation and gap filling. |
| Estimator.MinerScope1Sum | neurons/miner.py:272-304 | The miner's Scope 1 breakdown, with natural gas merged into stationary combustion, sums to Scope 1. |
| Estimator.LocalScope1Sum | api/services/subnet_bridge.py:365-394 | The platform's Scope 1 breakdown, with natural gas under its own key, sums to Scope 1. |
| Estimator.Scope1Keys | neurons/miner.py:281-302 | Each direct source is reported under its own key; the miner adds natural gas to stationary combustion, the platform does not. |
| Estimator.ActivityIsNotOverwritten | neurons/miner.py:340-368 | A Scope 3 category whose activity data come to something is reported with exactly that; averages never replace it. |
| Estimator.AnswersAreConsistent | neurons/miner.py:227-258 | For every data set: the reported total is exactly the sum of the reported scopes, and the Scope 1 and Scope 3 breakdowns sum to theirs. |
| Estimator.ImplementationsAgree | api/services/subnet_bridge.py:335-462 | For one questionnaire, which the miner fills in with defaults and the platform reads as it is: identical totals and Scope 3 categories, and Scope 1 breakdowns with equal sums that differ only in where natural gas is booked. |
| Estimator.DefaultsChangeNoEstimate | neurons/miner.py:51-89 | Filling in the miner's defaults changes no emission figure, no breakdown and no setting. |
| Estimator.ConfidencesDiffer | carbonscope/utils.py:96-108 | With the source's manufacturing weights: the empty questionnaire is valid and gets confidence 0.03 from the miner and 0.0 from the platform; one with every amount but no fuel type gets 1.0 and 0.95. |
| Estimator.ConfidencesAgreeIff | neurons/miner.py:232-240 | The two confidences are equal if and only if 0.6 times the completeness of the filled-in data plus 0.4 times their input ratio is less than 0.00005 from the completeness of the data as received, which is all the platform reports. |
| Estimator.MinerAnswerIsClean | carbonscope/protocol.py:123-148 | The protocol's field validators leave the miner's answer unchanged; its confidence is negative exactly for the error answer. |
| AnswerRules.CleanedFacts | carbonscope/protocol.py:123-148 | The protocol validators turn negative figures into zero, cap confidence at one, keep everything else and are idempotent. |
| Compliance.CheckGhgCompliance | carbonscope/validation/ghg_protocol.py:12-96 | Raises exactly when a total is null; otherwise the running score with its loop and branches is one minus the penalties of the broken rules, not below zero. |
| Compliance.ComplianceScoreBounds | carbonscope/validation/ghg_protocol.py:12-96 | For every response with numbers for totals the score is between 0 and 1, and 1 exactly when no rule is broken. |
| ScoringRules.ComplianceIsRuleBook | carbonscope/validation/ghg_protocol.py:29-96 | The score of every response in whole points: 25 for a total more than one per cent off the sum, 20 for each negative figure, 15 for fuel or electricity without its scope, 10 for no breakdown, and 10, 5 and 10 for one that is off by more than two per cent. |
| Compliance.ConsistentScore | carbonscope/validation/ghg_protocol.py:29-96 | Totals that add up with breakdowns that account for them lose nothing but the two activity rules. |
| Compliance.MinerAnswerScore | carbonscope/validation/ghg_protocol.py:29-96 | The miner's own answer gets 1.0 if and only if not all direct sources of given fuel, and not all of given electricity, round to zero kg; otherwise it loses 0.15 for each. |
| Compliance.LocalAnswerScore | api/services/subnet_bridge.py:359-462 | The platform's own estimate is judged exactly alike. |
| Compliance.OwnAnswerCanBeMarkedDown | carbonscope/validation/ghg_protocol.py:46-50 | A concrete valid questionnaire whose honest answer gets 0.85. |
| Scoring.CalcAccuracyScore | carbonscope/scoring.py:39-70 | The weighted loop computes the specified accuracy. |
| Scoring.AccuracyBounds | carbonscope/scoring.py:39-70 | Accuracy is between 0 and 1, and 1 when every scope is as in the truth. |
| ScoringRules.AccuracyIsRuleBook | carbonscope/scoring.py:39-70 | Relative errors of at most a hundred points each weigh 30, 20 and 50 per cent, to four places. |
| Scoring.CalcCompletenessScore | carbonscope/scoring.py:73-107 | A fifth for each of the five required fields that is there. |
| Scoring.MinerAnswerIsComplete | carbonscope/scoring.py:84-107 | The miner's own answer always scores 1.0 for completeness, the error answer 0.4. |
| ScoringRules.CompletenessIsFifths | carbonscope/scoring.py:73-117 | A fifth each for all four totals, any breakdown, a confidence in range, sources and assumptions. |
| Scoring.OverconfidencePenalty | carbonscope/scoring.py:120-147 | Between 0 and 0.25, and positive exactly for a confidence of 0.7 on at most 5 fields or 0.8 on at most 8. |
| ScoringRules.OverconfidenceIsRuleBook | carbonscope/scoring.py:120-150 | 25, 15 or 8 points by the number of fields and the confidence, level by level. |
| Scoring.RunSanityChecks | carbonscope/validation/sanity_checks.py:12-93 | The running score with its early exit is one minus the penalties of the failed checks, not below zero. |
| ScoringRules.SanityIsRuleBook | carbonscope/validation/sanity_checks.py:12-93 | In whole points: 30 for any negative figure, 20 for Scope 2 outside 0.005 to 1.35 kg per kWh, 20 for a total beyond the industry's limit per employee, 15 for confidence above 0.9 on fewer than three amounts, 25 for a zero total despite activity. |
| Scoring.CheckBenchmarkAlignment | carbonscope/validation/benchmark.py:12-53 | The loop over the scopes computes one minus the three deviations. |
| Scoring.BenchmarkScoreBounds | carbonscope/validation/benchmark.py:12-53 | Always positive and at most 1. |
| ScoringRules.BenchmarkIsRuleBook | carbonscope/validation/benchmark.py:12-53 | Each share costs nothing within fifteen points of the typical one, then evenly more up to 33 at fifty-five points. |
| Scoring.ScoreResponse | carbonscope/scoring.py:153-236 | Raises exactly when a total is null; otherwise the composite of the five checks, minus the penalty, is the specified final score. |
| ScoringRules.FinalIsComposite | carbonscope/scoring.py:153-235 | The final score of every response is the axes weighted 40, 25, 15, 15 and 5 with a truth, and 10, 35, 20, 25 and 10 without, less the deduction, not below zero, to four places. |
| Scoring.FinalScoreInUnit | carbonscope/scoring.py:215-235 | For every response that is scored, every questionnaire, truth and industry the final score is between 0 and 1. |
| Scoring.OwnSanity | carbonscope/validation/sanity_checks.py:36-93 | Consistent non-negative totals keep at least 0.45 of the sanity score, and 0.6 without Scope 2: a zero total is never extreme. |
| Scoring.OwnAnswerNeverScoresZero | carbonscope/scoring.py:190-235 | A miner that answers with this estimator gets at least 0.165 on every valid questionnaire, and 0.395 when there is no ground truth. |
| Validator.Alpha | neurons/validator.py:84-85 | The configured rate is clamped to [0, 1]. |
| Validator.CarbonValidator.UpdateScores | neurons/validator.py:232-260 | One update of score, count and zero counter is the model's step. |
| Validator.CarbonValidator.ScoreAndUpdate | neurons/validator.py:376-387 | The loop over a round's replies carries out exactly the round's updates in order. |
| Validator.CarbonValidator.SetWeights | neurons/validator.py:273-290 | The weights set are the normalised scores, none while there are no scores. |
| Validator.ScoreReply | neurons/validator.py:159-181 | Error responses, failures, missing totals and replies whose scoring raises score zero, everything else its final score. |
| Validator.RoundKeepsScoresInUnit | neurons/validator.py:232-260 | Whatever the miners reply, running scores stay between 0 and 1. |
| Validator.ScoresStayInUnit | neurons/validator.py:232-260 | So they do in every run of updates between 0 and 1, from any loaded scores between 0 and 1. |
| Validator.NewMinerFollowsOwnScores | neurons/validator.py:240-260 | A new miner's running score, count and zero counter depend on nothing but its own scores, however updates interleave; the zero counter is the trailing run of zeros. |
| Validator.UpdateMovesByRate | neurons/validator.py:245-261 | An update moves the running score by the rate times its distance to the new score, from 0.3 for a new miner, and no other miner's; the rate is min(0.3, 3 alpha) for the first ten scores and alpha after. |
| Validator.EqualScoresClosedForm | neurons/validator.py:245-261 | After n scores of x, however interleaved, a new miner stands at x + (0.3 - x) (1 - c)^min(n, 10) (1 - alpha)^max(n - 10, 0) with c = min(0.3, 3 alpha). |
| Validator.BetterMinerEndsHigher | neurons/validator.py:246-290 | Of two new miners queried in the same rounds, one that scores at least as high every round ends with at least the score and at least the weight. |
| Validator.WeightsSumToOne | neurons/validator.py:285-290 | Weights are non-negative and sum to 1. |
| Validator.WeightsInProportion | neurons/validator.py:285-290 | Weight times the sum of the scores is the score. |
| Validator.WeightsKeepOrder | neurons/validator.py:285-290 | Weights keep the order of the scores. |
| Validator.ZeroWeightIff | neurons/validator.py:286-290 | A zero score gets zero weight if and only if some miner has a positive score; otherwise all weights are equal and positive. |
| Validator.EstimatorResetsZeroCounter | neurons/validator.py:240-244 | A miner that runs the estimator resets its zero counter with every valid questionnaire and scores zero on every invalid one. |
| EventBus.ReceivedAndHeld | api/services/event_bus.py:33-74 | In every run, what a queue's reader received plus what the queue holds is, in order, what was published to it while subscribed, missing exactly the events published when it already held 64; it never holds more. |
| EventBus.AcceptedInOrder | api/services/event_bus.py:68-73 | The accepted events are a subsequence of the published ones: their positions rise. |
| EventBus.OnlyFullMissing | api/services/event_bus.py:68-73 | Every event that found room is among them. |
| EventBus.NoEmptySets | api/services/event_bus.py:49-54 | In every run no company is mapped to an empty set and every subscribed queue exists. |
| EventBus.OnlyOwnCompany | api/services/event_bus.py:33-36 | A subscription that enters for its own company is never reached by another company's events. |
| EventBus.ExitUndoesEnter | api/services/event_bus.py:33-54 | Leaving undoes entering. |
| EventBus.Queue.PutNowait | api/services/event_bus.py:69-72 | A full queue refuses, any other appends. |
| EventBus.OfferToAll | api/services/event_bus.py:66-74 | Every queue with room gets the event once and no other queue changes, in whatever order the set is walked; the count is theirs. |
| EventBus.SubscriberTable.EnterSubscription | api/services/event_bus.py:33-36 | Refines entering on the heap of queues. |
| EventBus.SubscriberTable.ExitSubscription | api/services/event_bus.py:49-54 | Refines leaving; the last queue removes the company. |
| EventBus.SubscriberTable.PublishEvent | api/services/event_bus.py:57-74 | Refines publishing; the count returned is the number of queues extended. |
| FactorCache.ServedIsRecent | carbonscope/emission_factors/loader.py:63-99 | With atomic reads every load returns the content the file had less than the time to live ago, and the version reported is the hash of exactly that content. |
| FactorCache.WithinTheHour | carbonscope/emission_factors/loader.py:66-72 | For an hour after a dataset was read or confirmed a load serves the same data and leaves the cache, whatever the file has become. |
| FactorCache.VersionsMatchIff | carbonscope/emission_factors/loader.py:66-82 | Over whole runs without atomic reads: after every load the reported version is the hash of the served data if and only if every reload parsed and hashed the same content. |
| FactorCache.KeepsUpIff | carbonscope/emission_factors/loader.py:63-82 | A cached dataset serves what is on disk in every atomic load past the time to live, after any number of such loads of a file that no longer changes, if and only if it does not hold other data under that file's hash. |
| FactorCache.AlwaysKeepsUpIff | carbonscope/emission_factors/loader.py:63-82 | Over whole runs: after every load the dataset keeps up in this sense with every file that may follow, if and only if every reload parsed what it hashed. |
| FactorCache.TornReloadIsServedForever | carbonscope/emission_factors/loader.py:69-82 | A reload that parses before and hashes after the file is replaced serves the old content in every later load, although the file no longer changes. |
| FactorCache.DatasetCache.LoadFactors | carbonscope/emission_factors/loader.py:41-82 | The cache's load refines the model's step; an unknown dataset raises and changes nothing. |
| FactorCache.DatasetCache.GetDatasetVersion | carbonscope/emission_factors/loader.py:85-99 | The cached version, else the hash of the file. |
| FactorCache.DatasetCache.InvalidateCache | carbonscope/emission_factors/loader.py:102-110 | Clears one dataset or all. |

## Left out

- Estimator.Estimate: notes are constructors with their data instead of texts, and the
  request hash is not modelled.
- Estimator.EstimateLocally: notes are constructors instead of texts.
- EmissionFactors.DirectSourcesAreKilograms: the factor tables are abstract, so no concrete
  emission figure is stated.
- Estimator.Forward: the second error answer, for internal errors, cannot occur on tables that
  contain the fallbacks; lower-casing of names, coercion of strings to numbers and fields that
  are not numbers are not modelled; a missing amount is zero for every reader.
- CircuitBreakers.SubnetBridge.QuerySubnet: what the network delivers and the clock readings
  are inputs; a reply's totals are numbers, nulls or missing, and no other type.
- Billing.BillingService.ResetMonthly: the once-a-month check and the lock between replicas
  are not modelled, the list of companies does not change during a reset, and a failing
  savepoint is one company's rollback.
- WebhookRetries.DispatchEvent: one webhook of an event; that what it raises also drops the
  deliveries of the event's other webhooks is not modelled.
- FactorCache.ServedIsRecent: a missing file reads as empty instead of raising.
- Concurrent plan changes, resets and uses of one refresh token, which read without a lock.
- The purge of a user deletes the subscription but not the ledger; only its token rows are
  modelled. A subscription opened again later adds another 100 credits to what is left
  (`Billing.GetOrCreateFacts`).
- Loading and saving of the validator's score file; its own retries, backoff and the choice
  of which miners to query.
- The exclusion between replicas of the scheduler, which fails open.
- Floating-point error, fractional clock readings and values that are not finite.
- HTTP, SQL, e-mail, cryptography, encodings, language models, documents and the frontend.
- Reviews, alerts, benchmark ranking, scenarios, predictions, recommendations and pathways:
  short branches or single sums.
