# CredBroker: a verified model of its protocols

CredBroker hands short-lived grant tokens to agents and makes provider calls on their behalf.
Most of what can go wrong in it is concurrent: invocations interleave at every await while they
share a Redis key space, database rows and in-memory circuit breakers.  This project models those
protocols as transition systems with a monotone clock, in which each Redis command and each
database commit is one atomic step, models the classes and methods themselves as imperative code,
and proves the two against each other.

How the files fit together:

| file | what it holds |
|---|---|
| `Redis.dfy` | the key space: GET, SET NX EX, DEL, INCR, EXPIRE, expiry by deadline |
| `Idempotency.dfy`, `IdempotencyRuns.dfy` | the reservation store, and any number of invocations interleaved on it |
| `CircuitBreaker.dfy`, `Retry.dfy`, `RetryRuns.dfy` | the breaker against its event history, the retry loop as a method and as an automaton, many loops on one breaker |
| `Grants.dfy`, `GrantRuns.dfy` | grant tokens, issuance, revocation and the revocation cache, called one at a time and interleaved |
| `Refresh.dfy` | the in-place refresh of a connected account's credential, handled and unhandled failures included, and its session |
| `InvokePath.dfy`, `InvokeCauses.dfy` | one invocation as an automaton over what an outsider sees of it, with a termination measure; when each act is due and why each outcome comes about, read off the observations |
| `InvokeView.dfy`, `InvokeService.dfy` | which observations of the stores are truthful, and the pipeline's methods, whose traces are paths of the automaton |
| `InvokeRuns.dfy`, `InvokeOnce.dfy` | any number of invocations over the grant tables and the stored credentials; at-most-once success under a key |
| `InvokeLoad.dfy` | progress, the rate bound and probe exclusivity, for the pipeline that uses the components |
| `Budget.dfy`, `Converse.dfy` | the time a phase, an invocation and a run can take, from the settings; a run that goes wrong with settings that do not fit |
| `RateLimiter.dfy`, `Scrub.dfy`, `Envelope.dfy`, `OAuthState.dfy` | the window arithmetic, the redaction loop, and the two codecs |

The methods are tied to the transition systems in this way.  `InvokeService.Service.Invoke` leaves
a trace of acts on its `Outside`; its contract says that the trace is a path of the automaton of
`InvokePath` to its end, that each act is a truthful observation of the stores as its await found
them, and that each write leaves the key space it should.  `InvokeRuns` lets an act happen exactly
when the automaton takes it and the observation is truthful, so its theorems are about any
interleaving of such traces.  A run of `InvokeRuns` is also a run of `GrantRuns`
(`InvokeRuns.RunProjects`), so what is proved of the grant tables holds under any invocations.

## Where the code and its promises part

The model follows the code.  In these places a promise does not hold as stated; each has a lemma
with the exact condition or a concrete run.

- **A rejected probe wedges the breaker.**  A half-open probe that fails with a 4xx records nothing
  (credbroker/reliability/retry.py:172-173), so the probe slot stays taken and every later call to
  the provider is refused, however long the reset window has been over.
  `RetryRuns.RejectedProbeWedges` is such a run, `RetryRuns.WedgedForever` says there is no way
  out, `RetryRuns.RecoversIffSlotFree` is the exact condition of recovery, and
  `RetryRuns.WedgedIffProbeUnrecorded` says that nothing but an unrecorded probe wedges a breaker.
- **The default retry budget outlasts a reservation.**  Four attempts of 15 s and 1.4 s of backoff
  exceed the 60 s reservation (credbroker/reliability/idempotency.py:41-43):
  `RetryBudget.DefaultsOutlastReservation` is that retry loop, and `RetryBudget.PhaseFitsIff` says
  exactly when settings keep a phase within a limit.  After that long two invocations can execute
  under one key: `IdempotencyRuns.OverrunBreaksExclusion`.  Whether a newcomer gets in is decided
  exactly by whether the holder has overrun: `IdempotencyRuns.NewcomerIntrudesIffOverrun`.  With
  settings whose budget fits, the timing hypothesis is a theorem: `RunBudget.SettingsKeepHoldersInTime`;
  with settings whose phase does not fit there is a run of the whole pipeline, nobody overdue, that
  ends with two holders: `BudgetConverse.UnfitSettingsBreakExclusion`, and the defaults are among
  them: `BudgetConverse.DefaultsBreakExclusion`.
- **The accepted race between compare and act is real**: `IdempotencyRuns.ActRaceFreesTheSuccessor`
  is a run of it, and `IdempotencyRuns.ActDisturbsIffLate` the exact condition: the act of an
  invocation changes what another has in force if and only if its own reservation has ended.
- **A rate check that is held up can be admitted beyond the limit.**  The window is chosen by a clock
  reading before the INCR (credbroker/cache/ratelimit.py:43-48); an INCR that arrives after its
  counter has expired starts it again.  `RateLimiter.LateCheckIsAdmitted` is such a run, and
  `RateLimiter.WindowAdmitsMinIff` the exact condition.
- **Scrubbing can leave a secret behind.**  A registered secret that can be laid over the marker
  `[REDACTED]` (it is part of it, contains it, or overlaps one of its ends) can reappear in the
  scrubbed text.  `Scrub.RobustIffUntouched` gives the condition both ways, for every registry,
  every iteration order and every text.
- **The log filter leaves a record alone whose message cannot be formatted**
  (credbroker/logging_config.py:54-57); the handler then reports the raw message and arguments.
  The contract of `Scrub.Registry.Filter` says so.
- **A failed refresh can change the account.**  If the provider rotated the refresh token and that
  one cannot be encrypted, the new access token stays on the session's row
  (credbroker/invoke/service.py:524-531), the refresh is reported as failed, and the commit of the
  audit row (credbroker/invoke/audit.py:56-57) stores it next to the old refresh token and expiry.
  `Refresh.FailedRefreshChangesIffTorn` is the exact condition, `Refresh.TornRefreshSwitchesToken`
  says what the account then opens to, and `Refresh.TornRefreshHappens` gives such a refresh.  The
  contract of `InvokeService.Service.Invoke` shows that the half-made change is committed, and that
  an exception at the same point is rolled back instead.

## Model

| member | source | states |
|---|---|---|
| IdempotencyRuns.MutualExclusion | credbroker/invoke/service.py:314-360 | if no key has been lost and every holder has been within its 60 s reservation so far, no two invocations of one key are between a successful reserve and their final write |
| IdempotencyRuns.NewcomerIntrudesIffOverrun | credbroker/reliability/idempotency.py:87-105 | while one invocation alone holds a key with no live result, another's reserve succeeds if and only if the holder has overrun its reservation |
| IdempotencyRuns.KeyDecides | credbroker/reliability/idempotency.py:70-105 | in an undisturbed run a read is denied iff another invocation holds the key in time, replays a result iff one completed with it less than a window ago, and a reserve succeeds iff neither is so at its own moment |
| IdempotencyRuns.OverrunBreaksExclusion | credbroker/reliability/idempotency.py:41-43 | a run in which a holder takes 61.4 s, no key is lost and no act is raced, and two invocations execute under one key |
| IdempotencyRuns.ActRaceFreesTheSuccessor | credbroker/reliability/idempotency.py:23-26 | a run in which a marker expires between a holder's compare and its delete, and the delete frees the successor's key |
| IdempotencyRuns.ActDisturbsIffLate | credbroker/reliability/idempotency.py:107-143 | in a run undisturbed so far, the act of one invocation changes a marker in time or a result in its window of another if and only if its own reservation has ended (unless it rewrites the same result at the same instant); an act in time finds nothing of anybody else's in force |
| IdempotencyRuns.LosersSendNothing | credbroker/invoke/service.py:318-338 | an invocation that is denied for a conflict, or served from the cache, has made no provider call anywhere in the run |
| IdempotencyRuns.StoredResultsAreApart | credbroker/reliability/idempotency.py:107-126 | results that two invocations store under one key are at least a window apart |
| IdempotencyRuns.SuccessIsStored | credbroker/invoke/service.py:353-357 | when holders finish in time, an execution that ended as a success has stored its own result, which is there for the whole window |
| IdempotencyRuns.ReplayHasASource | credbroker/reliability/idempotency.py:78-85 | in every run, even with overruns, races and losses, a replay returns a result some invocation stored under that key less than a window before |
| IdempotencyRuns.ReplayIsTheStoredResult | credbroker/reliability/idempotency.py:70-85 | a replay within the window of a stored result returns exactly that result |
| IdempotencyRuns.OthersAreUndisturbed | credbroker/reliability/idempotency.py:117-143 | no step of one invocation changes a marker another holds in time, or a result still in its window |
| IdempotencyRuns.StaleHolderIsHarmless | credbroker/reliability/idempotency.py:17-20 | in every run, whatever was lost or raced before, a holder that compares after its reservation has ended is finished without a write and changes nothing in the key space |
| IdempotencyRuns.LiveMarkerHasAHolder | credbroker/reliability/idempotency.py:128-143 | in every run a live pending marker belongs to an invocation still in progress |
| Idempotency.PendingIsNeverAResult | credbroker/reliability/idempotency.py:37-40 | a pending marker is recognised as one and a stored result never is |
| Idempotency.PendingValueInjective | credbroker/reliability/idempotency.py:66-68 | the marker determines its owner token |
| Idempotency.StoreAnswersBack | credbroker/reliability/idempotency.py:70-143 | what the operations tell each other: a reserved key is a conflict for 60 s and only its owner may complete or release it, a stored result is replayed for its window and nobody may release it, anything else is a new key |
| Idempotency.Store.Open | credbroker/reliability/idempotency.py:56-60 | a store is built exactly for windows of at least one second |
| Idempotency.Store.Get | credbroker/reliability/idempotency.py:70-85 | unseen, conflict or the cached result, as the live value dictates |
| Idempotency.Store.ReserveKey | credbroker/reliability/idempotency.py:87-105 | the key space gains the owner's marker with a 60 s deadline exactly when no live value was there |
| Idempotency.Store.Complete | credbroker/reliability/idempotency.py:107-126 | the result replaces the marker exactly when the marker is still this owner's, and otherwise nothing changes |
| Idempotency.Store.Release | credbroker/reliability/idempotency.py:128-143 | the key is dropped exactly when it holds a marker, this owner's if an owner is given; a result is never dropped |
| CircuitBreaker.FieldsExplained | credbroker/reliability/retry.py:59-118 | after any calls on a monotone clock the four stored fields are those the event history dictates: closed iff fewer failures since the last success than the threshold, `opened_at` the time of the last failure, the slot taken iff a grant followed it |
| CircuitBreaker.AllowRefinesHistory | credbroker/reliability/retry.py:77-91 | `allow` grants iff the history is untripped, or a reset window has passed since the last failure and no grant followed it |
| CircuitBreaker.SyncReadingIsIrrelevant | credbroker/reliability/retry.py:100-118 | of the two clock readings of a failure only the one that trips matters |
| CircuitBreaker.GrantsOfATrippedBreakerAreSeparated | credbroker/reliability/retry.py:36-39 | between two grants of a tripped breaker there is a record |
| CircuitBreaker.ElapsedWindowAdmitsAProbe | credbroker/reliability/retry.py:64-91 | a free probe slot is granted iff the reset window has passed, and a success closes the breaker |
| CircuitBreaker.UnrecordedProbeWedges | credbroker/reliability/retry.py:85-91 | once the slot is granted and as long as nobody records, every ask is refused at every later time |
| CircuitBreaker.Breaker.Build | credbroker/reliability/retry.py:46-62 | the constructor's checks, and the initial state |
| CircuitBreaker.Breaker.Sync | credbroker/reliability/retry.py:64-69 | open moves to half-open, slot free, exactly when the window has elapsed |
| CircuitBreaker.Breaker.State | credbroker/reliability/retry.py:71-75 | reading the state is one more call of the history |
| CircuitBreaker.Breaker.Allow | credbroker/reliability/retry.py:77-91 | the answer is the history's, and the fields stay the ones of the history |
| CircuitBreaker.Breaker.RecordSuccess | credbroker/reliability/retry.py:93-98 | the breaker is as new |
| CircuitBreaker.Breaker.RecordFailure | credbroker/reliability/retry.py:100-113 | the fields stay those of the history with one more failure |
| CircuitBreaker.Breaker.Trip | credbroker/reliability/retry.py:115-118 | open, at this time, slot free |
| Retry.CallWithRetries | credbroker/reliability/retry.py:135-183 | with other loops using the breaker during every await, the loop's trace is a path of the loop automaton to its end, the end has its one cause on that trace (a time-out, a transport error or a 5xx only after 1 + max_retries calls), and the breaker has received from this loop exactly the calls the trace calls for; the final assertion is unreachable |
| Retry.Accounting | credbroker/reliability/retry.py:164-182 | every call was granted, every answered call is a record or the raise of a failure that is no outage, at most 1 + max_retries calls and max_retries sleeps |
| Retry.AnswerDecides | credbroker/reliability/retry.py:121-182 | what follows each answer, failure by failure: a time-out, a transport error or a 5xx is recorded, and with attempts left only the sleep of base * 2^(k - 1) can follow the k-th call; a result, any other failure, and an outage with no attempt left end the loop at once, the middle one without a record |
| Retry.BackoffTotal | credbroker/reliability/retry.py:178-178 | k sleeps take exactly base * (2^k - 1) |
| Retry.EndExplained | credbroker/reliability/retry.py:159-183 | a time-out, a transport error or a 5xx surfaces only when every attempt is spent; the other ends each have their one cause, and bad arguments always end the loop before it begins |
| Retry.RecordReply | credbroker/reliability/retry.py:171-182 | a result is recorded as a success, a time-out, a transport error or a 5xx as a failure, and any other failure not at all |
| Retry.Admit | credbroker/reliability/retry.py:165-168 | an attempt starts iff there is no breaker or the breaker grants it |
| Retry.Circuits.For | credbroker/invoke/service.py:575-584 | one breaker per provider, none shared, created on first use with the service's settings and keeping the calls it has received; none if the settings allow none |
| Retry.Circuits.Call | credbroker/invoke/service.py:472-479 | one outbound phase runs the retry loop on the provider's own breaker, which receives exactly the calls of the log, the loop's own being those of its trace; breakers of other providers receive none; settings that allow no breaker fail the phase like any bad argument |
| RetryRuns.AlwaysConsistent | credbroker/reliability/retry.py:164-182 | with any number of loops interleaved on one breaker, its fields are those of the merged history and each loop is a path |
| RetryRuns.ProbesAreSeparated | credbroker/reliability/retry.py:77-118 | while the breaker is tripped no two calls of any loops start without a record in between |
| RetryRuns.ElapsedWindowRecovers | credbroker/reliability/retry.py:34-39 | if every probe answered so far ended in success or a retryable failure, whatever other calls were answered, an elapsed window with no probe in flight admits a probe and its success closes the breaker |
| RetryRuns.RecoversIffSlotFree | credbroker/reliability/retry.py:85-91 | a tripped breaker with nothing in flight can recover if and only if its probe slot is free |
| RetryRuns.WedgedIffProbeUnrecorded | credbroker/reliability/retry.py:171-173 | with no call in flight a breaker is wedged if and only if its last probe was answered without a record, which takes a rejected probe |
| RetryRuns.WedgedForever | credbroker/reliability/retry.py:171-173 | a wedged breaker refuses every call of every later state |
| RetryRuns.RejectedProbeWedges | credbroker/reliability/retry.py:171-173 | one 503 and one 404 wedge a breaker of threshold 1 |
| GrantToken.SignedGrantVerifies | credbroker/grants/tokens.py:46-100 | a signed grant verifies to its own claims exactly until its truncated expiry, never after the row's expiry, and at least until a second before it |
| GrantToken.AcceptedIff | credbroker/grants/tokens.py:69-100 | a token is accepted iff it decodes to claims of this issuer, issued by now and not expired; called expired only if it decodes and is not from the future; invalid otherwise |
| Grants.IssuedTokenVerifies | credbroker/grants/service.py:130-153 | the token of a new grant names that grant, its agent, tool and scope, hashes to the row's hash, and verifies exactly until the row's expiry truncated to a second |
| Grants.GrantCache.RecordIssued | credbroker/cache/grants_cache.py:44-51 | the issued hint lives as long as the token |
| Grants.GrantCache.RecordRevoked | credbroker/cache/grants_cache.py:53-65 | the marker is live for ten minutes and the issued hint is gone |
| Grants.GrantCache.IsRevoked | credbroker/cache/grants_cache.py:67-74 | whether the marker is live |
| Grants.GrantCache.IsKnown | credbroker/cache/grants_cache.py:76-83 | whether the issued hint is live |
| Grants.Service.QueryAccount | credbroker/grants/service.py:93-109 | a newest account of the agent's own user for the provider, if there is one |
| Grants.Service.WithinRate | credbroker/grants/service.py:71-77 | the agent's own counter for the minute of the clock reading decides |
| Grants.Service.Bind | credbroker/grants/service.py:79-109 | the checks of the policy in their order, and the newest account of the agent's own user with the tool's provider |
| Grants.Service.CountActive | credbroker/grants/service.py:111-125 | the unrevoked grants of this agent, tool and scope that expire after now |
| Grants.Service.RequestGrant | credbroker/grants/service.py:48-158 | past the rate limit a request is granted if and only if the agent exists, its policy permits the tool under the tool's own scope, its user has an account with the provider and fewer active grants than the maximum are out; it then inserts exactly its own unrevoked row for a newest account; each denial has the reason of the first failing check and changes no table; rate-limited exactly when the agent's own counter of the minute is used up |
| Grants.Service.RevokeGrant | credbroker/grants/service.py:161-188 | the first revocation time is kept, the marker is written again on every call |
| Grants.NewestExists | credbroker/grants/service.py:102-105 | a nonempty set of accounts has a newest one |
| GrantRuns.ActiveGrantsBounded | credbroker/grants/service.py:79-153 | in every reachable state of interleaved requests, revocations, policy edits and clock ticks, the unrevoked unexpired grants of an agent, tool and scope number at most the configured maximum |
| GrantRuns.RequestAlone | credbroker/grants/service.py:79-158 | the steps of one request, uninterrupted, do what the service's call does: its row and its hint below the active limit, nothing at it, and the lock given up |
| GrantRuns.RevokeAlone | credbroker/grants/service.py:161-188 | the steps of one revocation, uninterrupted, do what the service's call does: first time kept, marker for 600 s, hint gone |
| GrantRuns.StepGrows | credbroker/grants/service.py:180-183 | every step keeps every row, and changes a row only by revoking it |
| GrantRuns.MarkerImpliesRevoked | credbroker/grants/service.py:181-186 | a revocation marker is present only if the row's `revoked_at` is already committed, whatever is flushed or expires |
| GrantRuns.HashNamesOneRow | credbroker/grants/service.py:130-151 | rows with the same token hash are the same row |
| GrantRuns.MarkerOutlivesGrant | credbroker/cache/grants_cache.py:28-65 | if no marker is flushed and tokens live at most 600 s, a written marker is there until its grant has expired |
| GrantRuns.GrantWasIssued | credbroker/grants/service.py:79-153 | every grant in the table was inserted by a commit at which its own agent's row was the policy it was checked against: the lock keeps that row as it was read |
| GrantRuns.AlwaysBound | credbroker/grants/service.py:93-105 | in every state the account of an issued grant is stored as the request read it: same user, same provider |
| Refresh.FailedRefreshChangesIffTorn | credbroker/invoke/service.py:520-538 | a refresh that does not succeed leaves the credential exactly as it was, by a rollback if it raised, except when the access token was sealed and the rotated refresh token cannot be, by an error that is handled: then the access token alone is the new one |
| Refresh.TornRefreshSwitchesToken | credbroker/invoke/service.py:524-531 | such a refresh is reported as failed, and the stored credential differs from the old one and opens to the new access token next to the old refresh token |
| Refresh.TornRefreshHappens | credbroker/invoke/service.py:524-531 | for every sound cipher under the local key manager, a refresh that is torn because the second encryption fails; raised as an unhandled exception instead, it leaves the credential as before |
| Refresh.RefreshKeepsTokensReadable | credbroker/invoke/service.py:509-538 | after any refresh, failed or not, the stored access token is the old blob or opens to the returned token, and the stored refresh token is the old blob unless the provider rotated it, when it may open to the rotated one; after a success it does so exactly if one was returned |
| Refresh.RefreshExplained | credbroker/invoke/service.py:481-538 | every end of a refresh with its one cause (the stored token opens or not, the endpoint's answer, each encryption, the commit), and what a success stores |
| Refresh.RefreshCredential | credbroker/invoke/service.py:509-538 | the row changes field by field and is committed exactly on success; each end has its one cause; on success the access token is the sealed new one, the refresh token stays unless the provider rotated it, and the expiry is the clock plus expires_in, or unknown if the reply has none; the new token is registered for redaction |
| Refresh.Seal | credbroker/crypto/kms.py:126-144 | the blob of the envelope, and the plaintext registered even when the key manager fails |
| Refresh.Session.Redeem | credbroker/invoke/service.py:481-507 | after a refresh of the loaded credential, what is due to be stored is what a rollback leaves if it raised, and what a flush leaves otherwise |
| Refresh.ConnectedAccount.Rollback | credbroker/invoke/service.py:239-241 | the row is back at what was last committed |
| InvokePath.ActLowersRank | credbroker/invoke/service.py:145-470 | the termination measure: every act of an invocation lowers the rank of its phase, and attempts stay within bounds |
| InvokePath.PathsAreShort | credbroker/invoke/service.py:427-470 | no invocation performs more than 6 * (1 + max_retries) + 19 acts, whatever it observes |
| InvokePath.OutboundBound | credbroker/invoke/service.py:387-470 | at most one refresh and 2 * (1 + max_retries) tool calls, and 1 + max_retries if the credential was refreshed up front |
| InvokePath.BackoffBound | credbroker/reliability/retry.py:164-178 | the total backoff of an invocation is at most 2 * base * (2^max_retries - 1) |
| InvokePath.EndedIsAuditedOnce | credbroker/invoke/service.py:192-255 | an ended invocation has exactly one audit act if it resolved a grant, as its last act, with the grant's id and the status success, failed or denied exactly as it ended, and none otherwise; its reservation is settled |
| InvokeCauses.ActIffDue | credbroker/invoke/service.py:145-479 | stated on what was observed alone: an act may come next iff it is due.  Each check is made exactly when all before it passed; a call whose checks passed, with its reservation if it has a key and a store, loads its account; a token within 60 s of its expiry is refreshed iff Google issued it with a refresh token, and otherwise used until it has expired; a 401 leads to a refresh iff the stored token was in use and can be refreshed; provider steps use the token in hand after a cleared re-check |
| InvokeCauses.EndExplained | credbroker/invoke/service.py:163-470 | every outcome with its causes, both ways: each denial by the check that failed with all earlier ones passed, each failure by the observation behind it, each success by the reply or the stored result |
| InvokeCauses.OwnReservationIsReplaced | credbroker/invoke/service.py:340-359 | an invocation writes under its key iff the reservation was still its own when it compared: its result if it succeeded, a deletion otherwise |
| InvokePath.CallsAreCleared | credbroker/invoke/service.py:419-450 | every provider step uses the token last obtained, and after that token was obtained the database was read and the very grant that was resolved found unrevoked |
| InvokePath.OutcomesAreEarned | credbroker/invoke/service.py:269-338 | a fresh success returns what the last call replied, a replay what the store held with no call, and a denial other than for revocation has called nobody |
| InvokePath.FullKeyDeterminesParts | credbroker/invoke/service.py:309-318 | as agent and account ids and tool names contain no colon, two requests share a key only if they agree on agent, account, tool and the caller's own key |
| InvokePath.AlwaysBooked | credbroker/invoke/service.py:340-365 | at every prefix of a path: the grant resolved, the reservation unsettled, the audit rows written and the token in use are those of the phase |
| InvokeService.Service.Invoke | credbroker/invoke/service.py:145-255 | the trace of an invocation is a path of the automaton to its end, made of truthful observations in order, decryptions and refreshes included, with every write leaving the key space it should; the outcome has its causes among those observations and no other outcome has; one audit row exactly when a grant row was found, with its id and with success, failed or denied as the invocation ended; the session ends with nothing pending, and the account's row is what the trace says is due: the credential as loaded, or what the refresh on the trace leaves, a torn change committed and a raised one rolled back |
| InvokeService.Service.InvokeResolved | credbroker/invoke/service.py:257-360 | from the grant row to an outcome or an exception, with any reservation settled in both cases |
| InvokeService.Service.InvokeKeyed | credbroker/invoke/service.py:307-360 | replay, conflict or reservation, the execution, and the settlement of the reservation |
| InvokeService.Service.Screen | credbroker/invoke/service.py:270-292 | revocation, expiry and rate limit, in this order |
| InvokeService.Service.Replay | credbroker/invoke/service.py:318-328 | a conflict is denied and a cached result returned without a call |
| InvokeService.Service.Claim | credbroker/invoke/service.py:329-338 | a lost race for the reservation is a conflict |
| InvokeService.Service.Settle | credbroker/invoke/service.py:344-359 | the key space ends with the result under the key after a success, without the key after any other end, and unchanged if the marker is not this owner's |
| InvokeService.Service.CompleteOrRelease | credbroker/invoke/service.py:344-359 | the owner-checked final write: the result after a success, the key dropped after any other end, nothing if the marker is not this owner's |
| InvokeService.Service.ExecuteCall | credbroker/invoke/service.py:362-470 | from loading the account to the end of the execution, with the exceptions that may strike at each await, inside a refresh included |
| InvokeService.Service.IsStale | credbroker/invoke/service.py:386-403 | refresh, use or give up, by the two clock readings and the 60 s margin |
| InvokeService.Service.RefreshOrOutcome | credbroker/invoke/service.py:481-507 | one refresh with every handled failure mapped to an outcome and every other left to surface; the token returned is the one that this very refresh of this account's credential gave |
| InvokeService.Service.DecryptStored | credbroker/invoke/service.py:404-417 | the text to which both layers of the account's stored token open, or a failed outcome if they open to none |
| InvokeService.Service.IsRevokedNow | credbroker/invoke/service.py:545-564 | the marker first, then the live row; a vanished row counts as revoked |
| InvokeService.Service.Turn | credbroker/invoke/service.py:431-470 | one outbound phase; only a 401 on a stored, refreshable credential leads to another |
| InvokeService.Service.CallLoop | credbroker/invoke/service.py:427-470 | the loop over outbound phases ends after at most two |
| InvokeService.Service.Conclude | credbroker/invoke/service.py:226-254 | an exception, at any point, rolls the session back before the audit row, whose commit flushes whatever is pending; either way the row ends as what is due |
| InvokeService.RowsOfAPath | credbroker/invoke/audit.py:34-58 | the audit row a trace stands for is that of the grant it resolved, says success, failed or denied exactly as the invocation ended, and there is one iff it resolved one |
| InvokeRuns.RunProjects | credbroker/invoke/service.py:192-255 | what the grant tables see of any run with invocations is a run of the grant tables |
| InvokeRuns.EachIsAPath | credbroker/invoke/service.py:145-255 | every invocation of every interleaved run follows the automaton |
| InvokeRuns.AuthorisationChain | credbroker/invoke/service.py:163-301 | every provider step of every run traces to one issued grant, for the presented token and tool: when it was committed its own agent's row allowed the tool, the scope is the tool's, the account was of that agent's user and the tool's provider, the expiry check came before issuance plus ttl, the rate limit permitted it, and a database read after the credential was obtained found this grant unrevoked |
| InvokeRuns.TokenIsTheAccounts | credbroker/invoke/service.py:373-446 | the token sent is the decryption of what was stored for the grant's account when the invocation loaded it, or what an act of its own, refreshing that credential, returned; the account still is the one of the agent's user and the tool's provider, the agent's row being the policy of the commit |
| InvokeRuns.RefreshIsStored | credbroker/invoke/service.py:524-538 | a refresh that succeeds replaces the stored credential of its account, and of no other, by the renewed one |
| InvokeRuns.RevocationStopsCalls | credbroker/invoke/service.py:422-450 | once its grant's revocation is committed, an invocation outside an outbound phase never enters one again, sends nothing more, and ends as a fresh success only if its result was already in |
| InvokeRuns.OnlyThePhaseUnderWay | credbroker/invoke/service.py:427-450 | an invocation caught inside an outbound phase by a revocation may finish that phase, retries included, but starts no other |
| InvokeRuns.CacheAgreesWithTable | credbroker/invoke/service.py:193-202 | a marker hit is followed by a row that is revoked, so the verdict of cache or row is that of the row alone, whatever is flushed or expires |
| InvokeRuns.RecheckHitAgreesWithTable | credbroker/invoke/service.py:555-564 | a marker hit at the re-check denies only what the database read would have denied |
| InvokeRuns.AuditConservation | credbroker/invoke/audit.py:34-58 | in every state the audit rows match one to one the finished invocations that resolved a grant: in grant, and success with success, failure with failure, denial with denial |
| InvokeRuns.LiveMarkerIsHeld | credbroker/invoke/service.py:340-359 | in every run, losses and overruns included, a live pending marker is held by an invocation that has yet to settle it, so no ended invocation leaves its own behind |
| InvokeRuns.KeyHasOneHolder | credbroker/invoke/service.py:314-359 | for the whole pipeline: if no key is flushed and holders settle in time, one invocation at most holds a key, and everyone else is shown a conflict |
| InvokeOnce.AtMostOnceSuccess | credbroker/invoke/service.py:314-359 | for the whole pipeline: if no key is flushed and holders settle in time, two invocations that end as fresh successes under one key have each stored their own result, at least a window apart |
| InvokeOnce.ReplayHasACompletion | credbroker/invoke/service.py:318-328 | every replay, in every run, returns a result that an invocation completed under that key less than a window before |
| InvokeOnce.ReplayIsTheCompletion | credbroker/invoke/service.py:318-328 | while a completion's window lasts, every replay of its key returns its result |
| RetryBudget.PhaseFitsIff | credbroker/reliability/retry.py:135-183 | an outbound phase always ends within a time limit if and only if 1 + max_retries calls and the whole backoff do |
| RetryBudget.DefaultsOutlastReservation | credbroker/config.py:44-45 | with the default settings and the client's 15 s timeout, a phase that times out takes 61.4 s, longer than the 60 s reservation |
| InvokeProgress.NeverStuck | credbroker/invoke/service.py:145-255 | progress: in every state of every run an invocation that has not ended has an act it can take, other than a crash, and what that act observes is what the stores and the breaker then show |
| PathBudget.HolderStaysWithin | credbroker/invoke/service.py:340-360 | from its reservation to the act still to come an invocation takes at most 2 * (1 + max_retries) calls, twice the whole backoff and the steps in between |
| RunBudget.SettingsKeepHoldersInTime | credbroker/reliability/idempotency.py:41-43 | if that budget fits into a reservation, nobody is overdue for its next act and no key is flushed, then every holder settles in time |
| RunBudget.AtMostOnceBySettings | credbroker/invoke/service.py:314-360 | mutual exclusion and at-most-once success of the pipeline with settings in place of a timing hypothesis |
| BudgetConverse.UnfitSettingsBreakExclusion | credbroker/invoke/service.py:314-360 | the converse: whatever the retries, base delay and pace, if one outbound phase at its worst lasts as long as a reservation, some run of the pipeline with these settings, in which no key is flushed and nobody is overdue, ends with two invocations holding one key |
| BudgetConverse.DefaultsBreakExclusion | credbroker/config.py:44-45 | the default settings with a 15 s client timeout are such settings |
| InvokeRates.RateBound | credbroker/invoke/service.py:280-292 | of one agent's invocations whose checks read the clock in one minute exactly min(checks, limit) are let through, if and only if no INCR came after the minute's counter had expired, or there are no more checks than the limit, or it is zero |
| InvokeRates.PromptRateBound | credbroker/invoke/service.py:280-292 | if the checks reach the server within their minutes, every minute lets through exactly min(checks, limit) |
| InvokeProbes.BreakersAreExplained | credbroker/invoke/service.py:472-479 | in every state of every run each provider's breaker is the one its history dictates, whichever invocations made the calls |
| InvokeProbes.ProbesAreSeparated | credbroker/reliability/retry.py:77-118 | while a provider's breaker is tripped, no two calls of any invocations go out to it without a record in between |
| InvokeRuns.AlwaysScreened | credbroker/invoke/service.py:270-338 | past the gate, a path has read a clock before its grant's expiry, with the row unrevoked and its scope the tool's, has been allowed by the rate limit if there is one, and holds a reservation if it was given a key and there is a store |
| RateLimiter.Limiter.Check | credbroker/cache/ratelimit.py:31-51 | one INCR in the window of the clock reading, an EXPIRE on the first, and allowed iff fewer than `limit` are counted there when it arrives |
| RateLimiter.CounterCountsHits | credbroker/cache/ratelimit.py:43-50 | a counter stands at the number of checks of its window, or at fewer exactly if it has been started again, however INCRs and EXPIREs are delayed, repeated or lost |
| RateLimiter.AdmittedIffWithinLimit | credbroker/cache/ratelimit.py:43-51 | in a window whose counter is never started again a check is admitted iff at most `limit` checks have come, itself included |
| RateLimiter.WindowAdmitsMinIff | credbroker/cache/ratelimit.py:43-51 | a window admits exactly min(checks, limit) if and only if no INCR came after its counter had expired, or it has no more checks than the limit, or the limit is zero; otherwise it admits more |
| RateLimiter.PromptNeverRestarts | credbroker/cache/ratelimit.py:43-50 | a counter's expiry never falls inside its own window, so checks whose INCRs arrive within their window never start it again |
| RateLimiter.LateCheckIsAdmitted | credbroker/cache/ratelimit.py:43-51 | with limit 1, a check held up for a minute is admitted as the second of its window |
| RateLimiter.IntervalAdmitsTwice | credbroker/cache/ratelimit.py:31-51 | any half-open interval one window long admits at most 2 * limit, if INCRs arrive within their windows |
| Scrub.RobustIffUntouched | credbroker/logging_config.py:14-41 | a registrable secret is absent from every scrubbed text, for every registry, order and text, if and only if it cannot be laid over the marker |
| Scrub.ReplaceKeepsTheRest | credbroker/logging_config.py:38-41 | a replacement puts the marker exactly where the leftmost occurrences were and keeps every piece of text around them |
| Scrub.BracketFreeIsRobust | credbroker/logging_config.py:14-41 | every registrable secret without brackets, except the word inside the marker, never survives |
| Scrub.SurvivorExamples | credbroker/logging_config.py:16-41 | the word inside the marker, and a secret with a bracket, do survive |
| Scrub.TouchingSurvives | credbroker/logging_config.py:34-41 | every secret that can be laid over the marker survives some registry, order and text |
| Scrub.ScrubKeepsAbsence | credbroker/logging_config.py:38-41 | an untouched secret, once replaced, is not brought back by the later replacements |
| Scrub.ScrubIsIdempotent | credbroker/logging_config.py:34-41 | with robust secrets, scrubbing again in any order changes nothing |
| Scrub.Registry.RegisterSecret | credbroker/logging_config.py:19-31 | exactly the decodable values of at least eight characters join the registry |
| Scrub.Registry.Scrub | credbroker/logging_config.py:34-41 | the loop over the registry in some order; no robust secret is left |
| Scrub.Registry.Filter | credbroker/logging_config.py:53-79 | each part a handler prints of the record is the scrubbed text of that part and holds no robust secret, unless the message cannot be formatted, in which case the handler prints the raw message as it was |
| Envelope.SplitIffJoin | credbroker/crypto/kms.py:138-163 | a blob passes the structural checks iff it is magic, u16 length, key, nonce and ciphertext joined, and the split finds those parts |
| Envelope.Layout | credbroker/crypto/kms.py:138-144 | the bytes of a blob: "CB1", the key length in two bytes with the high one first, the key, 12 bytes of nonce, the ciphertext |
| Envelope.PartsAreUnique | credbroker/crypto/kms.py:138-144 | different parts make different blobs |
| Envelope.MalformedIsRejectedUnopened | credbroker/crypto/kms.py:153-160 | any other blob is rejected as truncated or unknown, before any key manager or cipher could matter |
| Envelope.SplitRejects | credbroker/crypto/kms.py:153-160 | exactly which blobs are of an unknown version and which are truncated |
| Envelope.DecryptsIffOpens | credbroker/crypto/kms.py:146-171 | authentication: a blob decrypts to a text if and only if it is made of well-formed parts whose key the manager unwraps (the local one by opening it under its master key), whose ciphertext the cipher opens under that key, and whose bytes decode to that text |
| Envelope.DecryptInvertsEncrypt | credbroker/crypto/kms.py:126-171 | decrypt undoes encrypt for every string and every manager that unwraps the key it wrapped; encryption fails only for oversized wrapped keys |
| Envelope.LocalRoundTrip | credbroker/crypto/kms.py:94-118 | the local manager is built exactly for 32-byte keys, and with it every text round-trips through both key layers, whatever randomness is drawn |
| Envelope.TokenCipher.EncryptToken | credbroker/crypto/kms.py:126-144 | the blob of the envelope, and the plaintext registered for redaction |
| Envelope.TokenCipher.DecryptToken | credbroker/crypto/kms.py:146-171 | a text exactly if both layers of the blob open to it, registered for redaction before it is returned, and an error for every blob of which they do not |
| Decimal.ParseRender | credbroker/oauth/state.py:40-71 | parsing undoes rendering for every integer |
| OAuthState.SplitJoin | credbroker/oauth/state.py:59-62 | splitting undoes joining of bar-free fields |
| OAuthState.JoinSplit | credbroker/oauth/state.py:59-62 | splitting yields bar-free fields that join back |
| OAuthState.PayloadDeterminesFields | credbroker/oauth/state.py:42-64 | the signed payload determines user, expiry and nonce |
| OAuthState.MintedStateVerifies | credbroker/oauth/state.py:33-77 | a minted state verifies to its own user exactly while the clock is at most floor(mint time) + ttl, and is expired afterwards; minting fails exactly for users with a bar |
| OAuthState.VerifiedMeansMinted | credbroker/oauth/state.py:47-77 | if the signature a text carries is that of minted payloads only, and the text verifies, it does so for the user of some minting and not after that minting's expiry |
| OAuthState.VerifiesIff | credbroker/oauth/state.py:47-77 | a text verifies to a user iff it decodes to that user, an expiry not yet passed and a nonce, followed by the signature of the three |
| OAuthState.SignatureComesFirst | credbroker/oauth/state.py:50-75 | a text with a wrong signature is told only that, whatever its expiry; the expiry is read afterwards |

## Left out

- Cryptography and encodings: AES-GCM, HMAC, RS256, SHA-256, base64url (section 5 of RFC 4648) and UTF-8 are parameters with the laws each theorem names (round trip, length, injectivity, absence of a bar in a digest).
- Randomness, clocks and provider replies are arguments of the methods and free choices of the runs; owner tokens are assumed never to repeat.
- Redis key names are tagged values, one tag for each prefix, so prefixes cannot collide; an entry is live while the clock is before its deadline.
- Between a rate check's clock reading and its INCR any time may pass; the pipeline's method takes the reading from its expiry check, as there is no await in between.
- Outages of Redis or the database in the final writes, task cancellation, and clock skew between instances; any other unexpected exception after grant resolution is the act `Crash` or an unexpected reply.
- Exceptions before a grant row is resolved: they escape the pipeline without an audit row, and are no part of a path.
- InvokeService.Service.Settle: makes the store's compare and act at one moment; `IdempotencyRuns` and `InvokeRuns` put other steps between them.
- Credential consistency across concurrent refreshes of one account: each refresh works on the row as it was loaded, and the last commit wins.  In `InvokeRuns` sign-ins and the flush of a torn refresh are the event `Deposit`, which may store anything.
- InvokeRuns.TokenIsTheAccounts: says where the token comes from, not that a refresh happened no earlier elsewhere.
- Breakers injected from outside with settings other than the service's own.
- The store variants without an owner token are modelled as operations but used by no run, as the pipeline always passes one.
- Messages of errors and outcomes, latencies, the hash of the arguments in an audit row, and whether a replay was asked with the same arguments.
- HTTP bodies and JSON: a provider result is the text of an object, of which only the leading brace is used.
- Decimal.ParseRender: the parser covers a sign and ASCII digits; the further spellings that Python's `int` accepts are rejected, which no minted state contains.
- GrantRuns.ActiveGrantsBounded: rests on the agent row lock of PostgreSQL; the mode without row locks is not modelled.
- A revocation re-check between the retries of one outbound phase: the code makes none, and `InvokeRuns.OnlyThePhaseUnderWay` claims none.
- At-most-once for calls that failed and were released: a released key may be executed again.
- FastAPI and gRPC front ends, the console, OAuth connection handling, metrics, migrations, configuration loading, deployment and the demo services.
