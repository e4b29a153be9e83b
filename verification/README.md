# Roomard: verified models of its stateful core

Roomard is a hospitality platform: a web client, an API gateway and a set of services over one
PostgreSQL database. This project models the parts of it whose correctness depends on state kept
across calls, on interleavings, or on text and tree transformations, and proves what they are meant
to guarantee. Tables are sequences or maps, SQL statements are atomic steps on them, and code that
changes state is a class whose methods are tied to specification functions; the theorems are about
those functions and about step machines that interleave them.

| file | what it models |
|---|---|
| `RefreshTokens.dfy` | the refresh-token table: issue, single-use rotation, re-use detection, logout |
| `RefreshProtocol.dfy` | any number of clients with their shared in-flight refresh, the network and the token service, interleaved at every await |
| `RefreshLoss.dfy` | the same protocol when answers are lost and pages are reloaded |
| `LoginLockout.dfy` | the failed-login counter and its lock |
| `TenantContext.dfy` | transaction-scoped and session-scoped settings on recycled pool clients, with a failure possible at every statement |
| `AiGateway.dfy` | check, invoke, log: the rate and token caps over a log that lags behind |
| `AuditChain.dfy` | the per-tenant hash chain and its windowed verification |
| `KeysetPaging.dfy`, `PagedQueries.dfy` | cursor paging and the numbered statement text of the audit and guest queries |
| `Preferences.dfy` | the preference store written by card captures and by resolved exceptions |
| `CaseTranslation.dfy` | snake/camel translation of the keys of nested JSON |
| `PromptSubstitution.dfy` | `{{variable}}` substitution |
| `SummaryText.dfy`, `Briefs.dfy` | the `' · '` join and split; ranking, storing and reading a brief |
| `Migrations.dfy` | reading, applying and rolling back migrations |
| `OfflineQueue.dfy` | the offline capture queue and its replay |
| `ReviewPoller.dfy` | review ingestion and linking, one transaction a poll |
| `Wrappers.dfy`, `Ascii.dfy` | the option type, the search that returns one, and ASCII letters |

## Assumptions

- Random tokens, row ids, queue keys and the numbers of API calls are fresh; SHA-256 is collision-free with
  non-empty hexadecimal output and appears as a parameter.
- Time is a non-decreasing integer; where the application's and the database's clocks meet (call log,
  poll stamps) they are one clock.
- A transaction takes effect as a whole or not at all; a request of the preference, brief and poll
  models is one transaction.
- Answers of the AI model, the password comparison, the network and the file system are inputs of
  the operations, so every theorem holds for all of them.

## Where a promise holds only in part

The code is modelled as it stands. Where an intended property fails for some inputs, the exact
condition under which it holds is a theorem.

- Rotation marks a token as replaced by "the latest other un-revoked token of the user". That is
  bound to be the new token exactly when no other one carries the same or a later issue time
  (`SubselectFindsNewToken`, with the concrete tie in `TieMayMislink`).
- A lost refresh answer is harmless by itself: the waiting calls log the client out before it handles
  anything else (`OrderlyNeverReuses`). Before the first re-use, a client presents a revoked token exactly
  when the answer to its rotation was lost and another 401 is handled before any waiting call resumed, or
  when the page was reloaded while the rotation was under way (`PresentedRevokedIffStale`, `StaleHasCause`);
  both do happen (`HastyCallIsReuse`, `ReloadIsReuse`). In a browser, settling the refresh and resuming its
  waiters happen in one turn, which leaves the reload.
- If clearing session settings fails, a recycled client keeps its tenant exactly when the run got
  past its first statement (`FailedCleanupLeaks`).
- An audit event that does not sort after all others breaks the chain, and only such an event does
  (`InsertKeepsIntactIffLast`). Events of one transaction share their timestamp and are ordered by a
  random id, so this can happen (`SameTimeBreaksChain`).
- Changing a hashed field of an event can go unnoticed if and only if the event is the last and stays the
  last (`UnnoticedIffLast`); so can moving the last event to another tenant (`RemovalIsDetected`).
- With k calls under way at once the per-minute cap admits up to k - 1 calls more and the daily cap up to k
  calls' tokens less one; both excesses are reached (`MinuteBoundIsReached`, `DailyBoundIsReached`). Beyond that
  the caps are exceeded by at most the calls that lost their log row (`MinuteBound`, `DailyBound`); when no row
  is written, neither cap refuses anybody (`NothingLoggedNothingRefused`).
- Cursors keep milliseconds while the database keeps microseconds: pages tile exactly when no page
  boundary separates two rows the truncated cursor cannot tell apart (`PagesTile`,
  `MicrosecondsLoseRows`).
- A field named "allergen" is classified as an allergy but not as something to avoid
  (`AllergyPolarity`, `AllergenIsNotAvoided`).
- The documentation calls re-resolving a card idempotent. It adds no row and changes no confidence, but
  it counts every field once more, so it leaves the rows as they were if and only if the card has no
  fields (`CoveredCountsGrow`, `ResolvingAgainIsHarmless`).
- Confidences patched into an exception are unchecked, so a batch may break the column's range. It is persisted
  if and only if no stored confidence exceeds one and every negative one comes after a row or a field of its
  key (`PersistSucceedsIff`). So the order of fields, which never matters for what is stored, can decide whether
  anything is (`OrderDecidesSuccess`); every order is persisted exactly when each field would pass as the first
  (`EveryOrderSucceedsIff`).
- A migration file with its own BEGIN is not wrapped by the runner. If its record then fails, the schema
  is ahead of the table, only in such cases (`AheadNeedsOwnTransaction`), and the next run applies the file a
  second time (`OwnTransactionRunsTwice`). A down script is always wrapped; if it has its own COMMIT, as the only
  one there is has, and its record is not deleted, the schema falls behind and the next rollback runs the script
  a second time (`OwnCommitRollsBackTwice`). Deleting the record by hand and going on finishes the rollback
  (`InterruptedDownFinishes`).
- Regenerating a brief on a day without arrivals keeps the old items and counts; a later call repeats
  the reported zeros exactly when no stored item is vip or needs attention
  (`EmptyRegenerationKeepsCounts`, `StaleCountsExample`).
- Overlapping offline replays can upload a capture twice and can put back one already uploaded
  (`OverlapUploadsTwice`, `OverlapPutsBack`): twice exactly when two of them still hold it with attempts
  left, or one does and it was uploaded before (`DuplicatesIffHeldTwice`).
- A poll is meant to note a failed linking and go on. It does for failures of the AI call or of reading its
  answer; a failed statement aborts the transaction, the next statement fails outside any handler, and the poll
  is rolled back with all it ingested. So a poll that reaches its loop commits if and only if no insert fails, no
  linking statement of a new review does, and it can be finished (`CommitsIff`). The insert of an ambiguous link
  names a column `description` that `exception_queue_items` does not have: on this schema a poll commits if and
  only if no new review of its batch is ambiguous (`SchemaCommitsIff`), and one ambiguous review aborts every
  poll that fetches it, for ever (`AbortsForEver`, with the concrete poll in `AmbiguousPollIsStuck`).
- Direct feedback is polled under the kind "manual", which `integration_kind` does not know
  (`packages/db/migrations/0001_enums.sql:24-31`): such a poll fails at its first statement, always
  (`ManualAlwaysAborts`), where a comment in the code expects a missing integration to be noted.
- A committed review poll stamps one of the tenant's integrations of the kind but starts from one of the
  property's own; the next poll starts where this one was made exactly when both are the same row
  (`NextPollStart`), which may never be the case (`SharedKindNeverAdvances`).

## Model

| member | source | states |
|---|---|---|
| RefreshTokens.AuthService.Refresh | services/auth/src/service.ts:165-226 | which outcome each state of the presented token leads to, and the rows after it: a rotation closes one row and appends one, re-use revokes all of the user's and survives the later rollback, anything else leaves the table as it was |
| RefreshTokens.AuthService.SelectLatestOther | services/auth/src/service.ts:205-218 | the sub-select returns an un-revoked row of the user other than the one presented, issued no earlier than any other such row, or none if there is none |
| RefreshTokens.AuthService.IssueTokens | services/auth/src/service.ts:347-407 | issuing appends one un-revoked token and changes no other row |
| RefreshTokens.AuthService.Logout | services/auth/src/service.ts:228-243 | row by row: each un-revoked row that is the presented one, or with all devices one of the user, is revoked as of now; every other row stays |
| RefreshTokens.TokenDecidesOutcome | services/auth/src/service.ts:165-226 | only a token that is known, un-revoked and not yet expired is ever rotated, and a revoked one is always taken as re-used |
| RefreshTokens.LogoutRevokes | services/auth/src/service.ts:228-243 | a logout step revokes each row it names, keeps the instant of an earlier revocation and leaves every other row alone |
| RefreshTokens.EndedStaysEnded | services/auth/src/service.ts:165-243 | over all runs a token that was logged out, alone or with all of its user's, or replaced is never rotated again: presenting it is re-use |
| RefreshTokens.RotationKeepsLiveCount | services/auth/src/service.ts:205-218 | a successful refresh keeps every user's number of un-revoked tokens |
| RefreshTokens.ReuseRevokesAll | services/auth/src/service.ts:194-202 | after re-use the user has no un-revoked token and other users' tokens are untouched |
| RefreshTokens.SubselectFindsNewToken | services/auth/src/service.ts:205-218 | the rotation is bound to link the new token if and only if every other un-revoked token of the user was issued strictly earlier |
| RefreshTokens.TieMayMislink | services/auth/src/service.ts:205-218 | with two un-revoked tokens of one instant, refreshing one within that instant may link it to the other instead of the new token |
| RefreshTokens.RotationLinksNewToken | services/auth/src/service.ts:205-218 | with strictly increasing issue times the presented row is closed onto exactly the new token |
| RefreshTokens.NextKeepsLinked | services/auth/src/service.ts:165-243 | login, refresh, re-use and logout keep `replaced_by` the inverse of "was issued while refreshing" |
| RefreshTokens.ChainIsLine | services/auth/src/service.ts:165-226 | of two tokens from one login the earlier is replaced, by a token no later than the other |
| RefreshTokens.OneLiveTokenPerLogin | services/auth/src/service.ts:165-243 | over all runs tokens form disjoint acyclic chains, one per login, with at most one un-revoked token, the last |
| RefreshProtocol.ApiClient.HandleUnauthorized | apps/web/src/lib/api.ts:12-36 | a call that got a 401 waits, presenting the stored token if no refresh is in flight, or with no token is over and leaves the client signed out |
| RefreshProtocol.ApiClient.HandleRefreshResponse | apps/web/src/lib/api.ts:16-35 | the response stores the new pair, ends the shared refresh and settles exactly the waiting calls, all with the same result |
| RefreshProtocol.ApiClient.Resume | apps/web/src/lib/api.ts:75-88 | a settled call is retried with the token it was given, nothing else changing, or without one is over and leaves the client signed out |
| RefreshProtocol.ApiClient.SetTokens | apps/web/src/stores/auth.ts:27-39 | both tokens are replaced and nothing else changes |
| RefreshProtocol.ApiClient.Logout | apps/web/src/stores/auth.ts:27-39 | both tokens and the principal are dropped and nothing else changes |
| RefreshProtocol.DeliveryKeepsInv | apps/web/src/lib/api.ts:16-35 | delivering any message keeps tokens un-revoked, unshared and announced at most once |
| RefreshProtocol.RotationKeepsInv | services/auth/src/service.ts:205-218 | the service's rotation keeps the protocol invariant while the old token is still stored by the client |
| RefreshProtocol.NextKeepsInv | apps/web/src/lib/api.ts:12-88 | every step of client, network or service keeps the protocol invariant |
| RefreshProtocol.SingleFlight | apps/web/src/lib/api.ts:12-36 | in every interleaving a client has at most one refresh under way and every token presented is un-revoked |
| RefreshProtocol.NeverReuse | services/auth/src/service.ts:194-202 | the service never takes the re-use branch; a token is revoked only by its own rotation |
| RefreshProtocol.CallsMove | apps/web/src/lib/api.ts:49-101 | in every step a call stays or makes the one move its phase allows, with its cause and what the client then holds; answers and resumptions always move it |
| RefreshProtocol.SettledCallIsRetried | apps/web/src/lib/api.ts:75-83 | in every run a call whose refresh delivered token t is next retried with t, by its own resumption, and over only once that retry is answered |
| RefreshProtocol.FailedCallSignsOut | apps/web/src/lib/api.ts:84-87 | in every run a call whose refresh failed is over when it resumes, and its client then has neither tokens nor principal |
| RefreshLoss.StepKeepsInv | apps/web/src/lib/api.ts:12-88 | every step but one that takes the re-use branch, lost answers, reloads and requests of pages that are gone included, keeps the invariant that a stored token is revoked exactly when its replacement is on its way or its client went stale |
| RefreshLoss.PresentedRevokedIffStale | apps/web/src/lib/api.ts:12-88 | before the first re-use, a client presents a revoked token exactly when it went stale, and with its settled calls resumed only a reload can have made it so |
| RefreshLoss.StaleHasCause | apps/web/src/lib/api.ts:16-35 | a client goes stale only by losing the answer to a rotation or by a reload |
| RefreshLoss.OrderlyNeverReuses | apps/web/src/lib/api.ts:12-88 | however many answers are lost, the re-use branch is never taken as long as settled calls resume before the next 401 and no page is reloaded during its refresh |
| RefreshLoss.HastyCallIsReuse | apps/web/src/lib/api.ts:75-88 | a run in which the answer is lost, a second 401 is handled before the first call resumes, and the service takes the re-use branch |
| RefreshLoss.ReloadIsReuse | apps/web/src/stores/auth.ts:27-39 | a run in which the page is reloaded while the answer is on its way, keeps its stored token, and meets the re-use branch |
| LoginLockout.AuthService.PasswordLogin | services/auth/src/service.ts:91-137 | an attempt is accepted exactly when the account is active, no lock runs, there is a password and it is right; while a lock runs nothing changes, whatever the password; an acceptance clears counter and lock |
| LoginLockout.AuthService.RecordFailedLogin | services/auth/src/service.ts:295-305 | the counter grows by one and the lock is set from the maximum on, cleared below it |
| LoginLockout.CounterCountsFailures | services/auth/src/service.ts:295-312 | over all runs the counter is the number of failed comparisons since the last acceptance, and there is a lock exactly from the maximum on |
| LoginLockout.LockoutRefusesAll | services/auth/src/service.ts:112-119 | from the M-th failure in a row on, every attempt whose lock test falls within the lockout is refused and changes nothing, with the right password too |
| LoginLockout.LockoutSpacesFailures | services/auth/src/service.ts:108-128 | the n-th failed comparison comes at least n - M lockout durations after the M-th, over all sequential attempts without a success |
| LoginLockout.LockedSpacing | services/auth/src/service.ts:108-128 | once locked, each further failure waits a full lockout, because an expired lock does not reset the counter |
| TenantContext.PoolClient.ApplyContext | packages/db/src/tenant-context.ts:121-151 | all settings become the run's own and no other, or the failure leaves the transaction's rollback target intact |
| TenantContext.PoolClient.WithTenantContext | packages/db/src/tenant-context.ts:57-87 | every query sees, field by field, what the context gives: the kind of actor given or else "user" exactly with a user id, the first 512 printable characters of the agent; success means the whole begin-settings-queries-commit sequence was issued, failure ends in a rollback, and the client is left clean either way |
| TenantContext.PoolClient.WithReadOnlyTenantContext | packages/db/src/tenant-context.ts:97-119 | the same without a transaction, the settings cleared last in every case |
| TenantContext.SetupYieldsContext | packages/db/src/tenant-context.ts:121-151 | on a clean client the setup statements produce what the context says, field by field, and nothing of a predecessor's |
| TenantContext.ExpectedIsOwn | packages/db/src/tenant-context.ts:121-151 | the settings issued are what the context says, in terms of its fields alone |
| TenantContext.OwnContextIsUnique | packages/db/src/tenant-context.ts:121-151 | what a query is meant to see is determined by the context |
| TenantContext.UuidIsFiveGroups | packages/db/src/tenant-context.ts:48-49 | the test of ids accepts exactly five groups of hexadecimal digits joined by hyphens |
| TenantContext.RunStepKeepsShape | packages/db/src/tenant-context.ts:57-119 | whatever statement fails and however, a run's client can be cleaned, and is clean when released |
| TenantContext.NextKeepsInv | packages/db/src/tenant-context.ts:57-119 | acquiring a client and every action of any run keep the pool invariant |
| TenantContext.Isolation | packages/db/src/tenant-context.ts:57-151 | over all interleavings and failures idle clients are clean, active runs share no client, and each query inside a callback sees its own run's context |
| TenantContext.FailedCleanupLeaks | packages/db/src/tenant-context.ts:106-117 | without the cleanup a read-only run leaves a clean client if and only if its first statement never ran |
| AiGateway.AiGateway.EnforceCaps | services/ai-gateway/src/index.ts:79-113 | which cap refuses a call, the per-minute one first, zero caps never |
| AiGateway.AiGateway.Invoke | services/ai-gateway/src/index.ts:55-77 | refused calls leave no log row, all others one, with zero tokens when the provider failed |
| AiGateway.NextKeepsLog | services/ai-gateway/src/index.ts:115-152 | counts and token sums over the log are those over the logged calls, whether or not other inserts fail |
| AiGateway.MinuteBound | services/ai-gateway/src/index.ts:79-113 | with at most k calls between check and log, no 60-second window holds more than cap + k - 1 calls and those whose log row was lost |
| AiGateway.MinuteBoundIsReached | services/ai-gateway/src/index.ts:79-113 | for every cap and k some run reaches cap + k - 1, so the bound is sharp |
| AiGateway.NothingLoggedNothingRefused | services/ai-gateway/src/index.ts:115-152 | while no insert succeeds, neither cap refuses any call |
| AiGateway.DailyBound | services/ai-gateway/src/index.ts:79-113 | with at most k calls between check and log, a UTC day uses at most dailyCap - 1 + k * m tokens, m the largest logged call, and those of the calls whose log row was lost, also when calls are under way at midnight |
| AiGateway.DailyBoundIsReached | services/ai-gateway/src/index.ts:79-113 | for every cap, k and m some run without lost calls uses dailyCap - 1 + k * m tokens on one day, so the bound is sharp |
| AuditChain.CanonicalInjective | services/audit/src/service.ts:53-74 | the canonical text determines all hashed fields, although the resource kind may contain the separator |
| AuditChain.RecipesAgree | packages/db/migrations/0011_audit.sql:86-97 | the text the trigger joins in SQL is the one the service joins from the row, absent columns included |
| AuditChain.CheckRows | services/audit/src/service.ts:128-160 | the loop stops at the first row that does not check out and tells a wrong hash from a broken link |
| AuditChain.VerifyChain | services/audit/src/service.ts:88-160 | verification accepts a window exactly when every event in it has the right hash and link, and otherwise names the first that has not, with the reason |
| AuditChain.InsertKeepsIntactIffLast | packages/db/migrations/0011_audit.sql:70-106 | an insert keeps an intact log intact if and only if it sorts after all others |
| AuditChain.SameTimeBreaksChain | packages/db/migrations/0011_audit.sql:70-106 | two events of one time, the second with the smaller id: the log no longer verifies |
| AuditChain.LastHashBindsHistory | services/audit/src/service.ts:88-160 | two intact logs ending in the same hash have the same length and agree row by row on every hashed field |
| AuditChain.TamperingIsDetected | services/audit/src/service.ts:88-160 | changing a hashed field of an event, unless it was the last and stays last, makes verification of the whole log fail wherever the event then sorts and whatever hash and link it is given; the event reported is the forged one, its new or its old successor, and all others still check out |
| AuditChain.UnnoticedIffLast | services/audit/src/service.ts:88-160 | a hashed change can be given a hash and link that verify if and only if the event was the last and stays the last |
| AuditChain.RemovalIsDetected | services/audit/src/service.ts:103-133 | a row that leaves the tenant's log is missed, at its old successor and nowhere else, if and only if it was not the last |
| KeysetPaging.SelectIsSorted | services/audit/src/service.ts:205-236 | a selection holds exactly the matching rows after the cursor, newest first |
| KeysetPaging.NextRows | services/audit/src/service.ts:219-248 | the next page continues with all that was left over if and only if its first row lies after the truncated cursor |
| KeysetPaging.PagesTile | services/audit/src/service.ts:219-248 | following cursors terminates and yields exactly the matching rows, each once, if and only if no page boundary falls between rows the cursor cannot tell apart |
| KeysetPaging.MillisecondPagesTile | services/audit/src/service.ts:219-248 | with millisecond timestamps pages always tile |
| KeysetPaging.MicrosecondsLoseRows | services/audit/src/service.ts:238-248 | two rows of one millisecond read one per page: following the cursors returns only the first |
| PagedQueries.StatementBuilder.Push | services/audit/src/service.ts:178-204 | a pushed clause adds its filter, leaves the earlier ones as they were, and keeps text and parameters in step |
| PagedQueries.StatementBuilder.PushName | services/guest/src/service.ts:147-160 | the name search uses its one parameter three times and stays in step |
| PagedQueries.StatementBuilder.PushCursor | services/audit/src/service.ts:200-210 | the cursor clause takes two numbers for two parameters and stays in step |
| PagedQueries.BuildEventQuery | services/audit/src/service.ts:173-218 | placeholders are numbered 1, 2, ... in step with the parameters, the limit last, and the resolved clauses are the filters asked for |
| PagedQueries.EventFiltersMean | services/audit/src/service.ts:173-218 | the filters hold of exactly the rows the caller asked for that lie after the cursor |
| PagedQueries.QueryEvents | services/audit/src/service.ts:173-236 | running the built statement answers with the page after the decoded cursor, its own cursor encoded |
| PagedQueries.TextPagesTile | services/audit/src/service.ts:219-248 | a caller who sends back the cursor texts gets exactly the matching rows, each once, if and only if no page boundary falls between rows the cursor cannot tell apart |
| PagedQueries.BuildGuestSearch | services/guest/src/service.ts:143-190 | the guest search numbers its placeholders in step and its resolved clauses are the filters asked for |
| PagedQueries.SearchGuests | services/guest/src/service.ts:143-205 | running the built search answers with the page of at most 100 guests after the decoded cursor, its own cursor encoded |
| PagedQueries.GuestFiltersMean | services/guest/src/service.ts:143-190 | the guest filters hold of exactly the guests asked for that lie after the cursor |
| Preferences.PreferenceStore.UpsertPreference | services/capture/src/pipeline.ts:189-234 | every row under the key takes the maximum confidence and one more count and all others stay; without one a row is appended; it fails exactly when a confidence would leave the range, and then changes nothing |
| Preferences.PreferenceStore.ProcessCardCapture | services/capture/src/pipeline.ts:123-234 | a card all of whose fields reach the threshold is persisted as a whole or not at all; any other, and an empty one, is held back as one open exception with its fields |
| Preferences.PreferenceStore.Patch | services/exception/src/server.ts:112-184 | a successful patch leaves the requested status, stamps the closing instant exactly when it resolves or dismisses, takes the patched fields, touches no other item, and when it resolves a held-back card persists its fields in the same transaction; any other answer changes nothing |
| Preferences.StatusIsLastAsked | services/exception/src/server.ts:112-184 | over all runs an item's status is the one last asked for with success, open if none was, and its closing instant that of the last request that closed it |
| Preferences.KindIsFirstRule | packages/schemas/src/capture.ts:82-101 | a field's kind is that of the first rule, in order, under whose words its lower-cased name falls |
| Preferences.PolarityIsFirstRule | packages/schemas/src/capture.ts:103-111 | so is its polarity |
| Preferences.StoredIsNearest | services/capture/src/pipeline.ts:194-225 | the column keeps the nearest thousandth, of two equally near the one farther from zero |
| Preferences.FoodPolarityAgrees | packages/schemas/src/capture.ts:82-111 | what is classified as a disliked food never gets a favourable polarity, and a liked one never an unfavourable one |
| Preferences.AllergyPolarity | packages/schemas/src/capture.ts:82-111 | an allergy is marked to be avoided exactly when its name says "allergy" or "avoid", so not when it says "allergen" |
| Preferences.AllergenIsNotAvoided | packages/schemas/src/capture.ts:82-111 | a field named "allergen" is an allergy whose polarity is not avoids |
| Preferences.CaseDoesNotMatter | packages/schemas/src/capture.ts:82-111 | classification and the key of a row ignore the case of letters |
| Preferences.GreatestIsMax | services/capture/src/pipeline.ts:194-225 | taking the greatest and rounding to three decimals commute |
| Preferences.UpsertBumps | services/capture/src/pipeline.ts:194-225 | an upsert raises confidence to the maximum and the count by one under its key and touches no other key |
| Preferences.OrderDoesNotMatter | services/exception/src/server.ts:194-235 | two orders of the same fields, by either writer, that are persisted leave the same confidences and counts per key; both are persisted when every field would pass the range as the first of its batch |
| Preferences.PersistSucceedsIff | services/exception/src/server.ts:194-235 | a batch is persisted if and only if no stored confidence exceeds one and every negative one comes after a row or a field of its key |
| Preferences.EveryOrderSucceedsIff | services/exception/src/server.ts:194-235 | every order of the fields is persisted if and only if each of them would pass as the first |
| Preferences.OrderDecidesSuccess | services/exception/src/server.ts:163-235 | two fields of one key, 0.5 and -0.1, are persisted in this order and rejected in the other |
| Preferences.ResolutionEqualsAcceptance | services/exception/src/server.ts:163-235 | resolving a held-back card leaves the rows automatic acceptance would have left, apart from their source |
| Preferences.CoveredChangesCounts | services/exception/src/server.ts:194-235 | persisting fields already covered never fails, adds no row and changes no confidence |
| Preferences.CoveredCountsGrow | services/exception/src/server.ts:194-235 | persisting covered fields adds to each count the number of fields of its key, so it changes nothing if and only if there are no fields |
| Preferences.ResolvingAgainIsHarmless | services/exception/src/server.ts:163-235 | resolving an item again while it names the same guest and fields adds no row and changes no confidence, and changes nothing at all if and only if it has no fields |
| Preferences.StoreSummarisesHistory | services/capture/src/pipeline.ts:123-234 | over all runs there is one row per guest, kind and lower-cased detail, its confidence the greatest and its count the number of all fields persisted under it, each from a fully confident card or a resolved exception |
| CaseTranslation.KeyRoundTrip | packages/service-framework/src/plugin.ts:129-154 | to snake case and back is the identity on a key exactly when no underscore is followed by a lowercase letter or digit |
| CaseTranslation.KeyReverseRoundTrip | packages/service-framework/src/plugin.ts:129-154 | the reverse composition is the identity exactly when the key has no uppercase letter and no underscore followed by a digit |
| Ascii.CasesCorrespond | packages/service-framework/src/plugin.ts:129-154 | small and capital letters correspond place by place and no other character changes |
| CaseTranslation.CamelToSnakeInjective | packages/service-framework/src/plugin.ts:142-154 | on such keys translation to snake case is injective, so no members merge |
| CaseTranslation.TranslateKeys | packages/service-framework/src/plugin.ts:129-154 | the loop that fills the output object computes the key-by-key translation, later members overwriting earlier ones of the same translated key |
| CaseTranslation.PairChangesKeys | packages/service-framework/src/plugin.ts:129-154 | a key with such a pair always changes the key set of its object, even if another key is translated onto it |
| CaseTranslation.TreeRoundTrip | packages/service-framework/src/plugin.ts:129-154 | for every tree the round trip is the identity exactly when no key anywhere has such a pair |
| PromptSubstitution.LookupDotted | services/ai-gateway/src/prompt-store.ts:130-138 | the walk with its early return finds what following all name parts finds |
| PromptSubstitution.LookupComposes | services/ai-gateway/src/prompt-store.ts:130-138 | looking up `a.b` is looking up b in what a finds |
| PromptSubstitution.ReplaceRendersSegments | services/ai-gateway/src/prompt-store.ts:121-128 | leftmost-first replacement renders the template's segments once, so braces inside values are never expanded |
| PromptSubstitution.IdentityIffMatchFree | services/ai-gateway/src/prompt-store.ts:121-128 | a template is left alone by all values if and only if it has no placeholder |
| PromptSubstitution.ParsePrints | services/ai-gateway/src/prompt-store.ts:121-128 | the segments print back to the template |
| PromptSubstitution.ParseConcat | services/ai-gateway/src/prompt-store.ts:121-128 | the segments of a concatenation are those of its parts if and only if no placeholder straddles the cut |
| PromptSubstitution.PlaceholdersAreLocal | services/ai-gateway/src/prompt-store.ts:121-128 | whether a placeholder starts a text is decided by the text it covers |
| PromptSubstitution.PlaceholdersAreDisjoint | services/ai-gateway/src/prompt-store.ts:121-128 | no placeholder starts inside another |
| PromptSubstitution.MatchIffShape | services/ai-gateway/src/prompt-store.ts:121-128 | the scan finds a placeholder exactly when the text is two braces, spaces, a name, spaces, two braces and anything, with that length and name and no other |
| PromptSubstitution.NameCharactersAre | services/ai-gateway/src/prompt-store.ts:121-122 | a name is of ASCII letters, underscores, digits and dots and starts with one of the former two, the characters listed one by one |
| PromptSubstitution.SpacesAre | services/ai-gateway/src/prompt-store.ts:121-122 | the spaces around a name are exactly the listed characters |
| PromptSubstitution.SubstituteRendersSegments | services/ai-gateway/src/prompt-store.ts:121-138 | substitution is splitting into segments that print back and joining literals with looked-up values |
| PromptSubstitution.SubstituteShowsValues | services/ai-gateway/src/prompt-store.ts:121-128 | each placeholder becomes what its name is found to hold: a text as it is, nothing for a missing or null value, the JSON of any other; everything else stays |
| PromptSubstitution.LookupFindsMember | services/ai-gateway/src/prompt-store.ts:130-138 | a name without a dot finds the member of that name, and nothing where there is none |
| PromptSubstitution.SubstituteDistributes | services/ai-gateway/src/prompt-store.ts:121-138 | substitution distributes over concatenation wherever no placeholder straddles the cut |
| SummaryText.FirstPiece | services/brief/src/pipeline.ts:387-396 | an element is split off whole exactly when it neither contains the separator nor ends halfway into one |
| SummaryText.ContainsMeans | services/brief/src/pipeline.ts:387-396 | an element contains the separator, or ends halfway into one, as a whole text says it |
| SummaryText.ReadBackIff | services/brief/src/pipeline.ts:387-396 | a stored list reads back unchanged exactly when no element contains the separator, none but the last ends halfway into one, and it is not a single empty string |
| Briefs.BriefStore.PersistItems | services/brief/src/pipeline.ts:159-215 | the insert loop stores the arriving items of the ranked list with their counts |
| Briefs.BriefStore.GenerateBrief | services/brief/src/pipeline.ts:65-239 | which requests are answered from the stored brief, refused, without arrivals, failed or generated, and the store after each: a failed AI call and an answer from the store change nothing |
| Briefs.SortRanks | services/brief/src/pipeline.ts:159-166 | the stable sort is the vip, then the attention, then the standard items, each in the AI's order |
| Briefs.DropCommutesWithRanking | services/brief/src/pipeline.ts:159-190 | dropping unknown guests while inserting equals dropping them before ranking |
| Briefs.RowsAreArrivingItems | services/brief/src/pipeline.ts:168-215 | the rows are the arriving items in order, column by column, with strictly increasing sort indices |
| Briefs.GeneratedBriefReadsBack | services/brief/src/pipeline.ts:350-400 | a generated brief reads back as exactly the arriving AI items in rank order, with matching counts, and a later unforced call reports the same totals |
| Briefs.CountsMatchItems | services/brief/src/pipeline.ts:77-223 | after any requests the stored counts are those of the stored items |
| Briefs.EmptyRegenerationKeepsCounts | services/brief/src/pipeline.ts:116-129 | after a regeneration without arrivals later totals agree with the answer if and only if no stored item is vip or needs attention |
| Briefs.FailedCallLeavesNoTrace | services/brief/src/pipeline.ts:131-148 | in every run a request whose AI call fails leaves brief and items as they were |
| Briefs.StaleCountsExample | services/brief/src/pipeline.ts:116-129 | a concrete run in which the stored brief still counts a vip after such a regeneration |
| Migrations.UpFilterIsRedundant | packages/db/src/migrate.ts:52-56 | no down file is ever taken for an up file |
| Migrations.NamesAre | packages/db/src/migrate.ts:29-30 | an up file is called by four digits, an underscore, a name of small letters, digits and underscores and ".sql", a down file by the same with ".down.sql" |
| Migrations.IdPrintsAsPrefix | packages/db/src/migrate.ts:58-71 | the id is the number whose four decimal digits the file's name starts with |
| Migrations.ReadSortsById | packages/db/src/migrate.ts:52-72 | sorting names yields increasing ids and exactly the matching files |
| Migrations.Migrator.MigrateUp | packages/db/src/migrate.ts:92-136 | the loop's effect on schema, table and list of applied files, including the failure it stops at |
| Migrations.Migrator.MigrateDown | packages/db/src/migrate.ts:138-176 | the loop's effect on schema, table and list of rolled-back files, including the failure it stops at, of a script or of the deletion of its record |
| Migrations.Migrator.RollBackFile | packages/db/src/migrate.ts:161-170 | a down script and the deletion of its record take effect together, unless the script ends the transaction and the deletion fails, which keeps the script's effect |
| Migrations.UpKeepsPrefix | packages/db/src/migrate.ts:92-136 | up, failing or not, extends the applied records by the next files in order |
| Migrations.DownKeepsPrefix | packages/db/src/migrate.ts:138-176 | down, failing or not, removes exactly the last records it reports |
| Migrations.AppliedIsAlwaysPrefix | packages/db/src/migrate.ts:92-176 | over every run of up and down the applied set is a prefix of the sorted files |
| Migrations.RefusalChangesNothing | packages/db/src/migrate.ts:104-111 | a checksum refusal changes nothing |
| Migrations.SecondUpAppliesNothing | packages/db/src/migrate.ts:92-136 | after a successful up a second one applies nothing and succeeds |
| Migrations.DownUndoesUp | packages/db/src/migrate.ts:92-176 | when down scripts invert up scripts, rolling back the files an up applied, every record deleted, restores schema and table, also after a failure midway, unless a script with its own transaction went through without its record, which then is undone by its down script first |
| Migrations.InterruptedDownFinishes | packages/db/src/migrate.ts:151-171 | a rollback stopped by a failing deletion can be finished: going on for the remaining steps ends as if no deletion had failed, at once if the script was rolled back with it, after deleting the record by hand if the script had committed, which is the only way the schema falls behind the table |
| Migrations.Migrator.ApplyFile | packages/db/src/migrate.ts:113-131 | a script and its record take effect together if the runner wraps them and the script leaves the transaction alone; any other keeps its effect when its record fails |
| Migrations.HasBeginMeans | packages/db/src/migrate.ts:117 | a file is left unwrapped if and only if the word BEGIN, in any case, stands somewhere in it with no word character before or after it |
| Migrations.AheadNeedsOwnTransaction | packages/db/src/migrate.ts:113-131 | the schema gets ahead of the table only through a file that names BEGIN or ends the transaction, and whose record fails |
| Migrations.OwnTransactionRunsTwice | packages/db/src/migrate.ts:113-131 | such a file is applied a second time by the next run |
| Migrations.OwnCommitRollsBackTwice | packages/db/src/migrate.ts:161-170 | a down script with its own COMMIT whose record is not deleted is run a second time by the next rollback |
| OfflineQueue.CaptureQueue.EnqueueCapture | apps/web/src/lib/offline-queue.ts:46-52 | a capture is stored with no attempts, others untouched |
| OfflineQueue.CaptureQueue.ListQueuedCaptures | apps/web/src/lib/offline-queue.ts:54-57 | the list holds every stored row exactly once |
| OfflineQueue.CaptureQueue.MarkCaptureFailure | apps/web/src/lib/offline-queue.ts:64-71 | a failure adds one attempt and the message to its row, keeps the contents and every other row, and does nothing if the row is gone |
| OfflineQueue.CaptureQueue.Replay | apps/web/src/hooks/useOfflineReplay.ts:15-34 | offline nothing happens; online every queued row with attempts left is uploaded once with its contents, removed if that succeeds and otherwise kept with one more attempt and the message; a row without attempts left stays as it is |
| OfflineQueue.ReplayMeans | apps/web/src/hooks/useOfflineReplay.ts:15-34 | a replay of all that is queued, capture by capture and attempt by attempt, whatever order the list comes in |
| OfflineQueue.NothingIsLost | apps/web/src/hooks/useOfflineReplay.ts:15-34 | in every interleaving of enqueues and replays a capture no longer queued has been uploaded with its contents |
| OfflineQueue.UploadedOnce | apps/web/src/hooks/useOfflineReplay.ts:15-34 | without overlap each capture is uploaded at most once and refused at most five times, and between replays exactly the uploaded ones are gone |
| OfflineQueue.FiveReplaysSettle | apps/web/src/hooks/useOfflineReplay.ts:10-34 | five completed online replays deliver every capture or leave it aside after five refusals |
| OfflineQueue.ReplayIsRun | apps/web/src/hooks/useOfflineReplay.ts:15-34 | an undisturbed replay is a run of the step machine, so the theorems above apply to it |
| OfflineQueue.OverlapUploadsTwice | apps/web/src/hooks/useOfflineReplay.ts:15-39 | two overlapping replays upload one capture twice |
| OfflineQueue.OverlapPutsBack | apps/web/src/lib/offline-queue.ts:64-71 | the slower of two overlapping replays puts back a capture already uploaded and removed |
| OfflineQueue.DuplicatesIffHeldTwice | apps/web/src/hooks/useOfflineReplay.ts:15-34 | without further replays a capture can end up uploaded twice exactly when its uploads so far and the replays that still hold it with attempts left are two or more |
| ReviewPoller.Poller.UpsertReview | services/ingest/src/review-poller.ts:242-273 | a review is inserted unless its tenant, source and external id are present, which changes nothing; in an aborted transaction the statement fails |
| ReviewPoller.Poller.LinkReviewToGuest | services/ingest/src/review-poller.ts:281-392 | the effect of each confidence band and of missing candidates, and for a failure at each call whether it throws with the transaction alive or aborted |
| ReviewPoller.AnswerIsRead | services/ingest/src/review-poller.ts:394-413 | the guest is the text in the answer's field or none, the confidence its number or zero, read in the raw text the answer carries if that parses; a scalar or an unreadable raw text says nothing |
| ReviewPoller.Poller.Run | services/ingest/src/review-poller.ts:88-184 | tables, integrations and summary after a poll, early returns included, and the rollback of a poll in which a statement failed |
| ReviewPoller.LinkTouchesOne | services/ingest/src/review-poller.ts:281-392 | linking touches one review, keeps its key, and queues exactly one question about it or none |
| ReviewPoller.LinkBands | services/ingest/src/review-poller.ts:335-392 | a suggested guest is taken from confidence 0.85 on; otherwise a person is asked from 0.5 on, with the suggestion, and below that the confidence is only noted |
| ReviewPoller.LinkWithoutSuggestion | services/ingest/src/review-poller.ts:312-341 | without candidates the review is noted as unlinked and nobody asked; when the model or its answer fails nothing is written |
| ReviewPoller.PollKeepsInv | services/ingest/src/review-poller.ts:88-184 | a poll that is rolled back changes nothing; a committed one keeps keys unique, only adds rows, and counts fetched as new plus duplicates and new as linked plus queued plus unlinked |
| ReviewPoller.PollBooksItsOwn | services/ingest/src/review-poller.ts:124-133 | every review a committed poll adds was fetched by it and carries its tenant, property, source and integration |
| ReviewPoller.ErrorsAreFailedAnswers | services/ingest/src/review-poller.ts:141-160 | the errors of a committed poll are exactly those of its new reviews for which the model or its answer failed |
| ReviewPoller.PollsKeepInv | services/ingest/src/review-poller.ts:88-184 | over every sequence of polls, rolled-back ones included, reviews are unique, the sum of new over committed polls is the number of reviews and the sum of queued the number of questions |
| ReviewPoller.RepollChangesNothing | services/ingest/src/review-poller.ts:242-273 | polling reviews that a committed poll ingested, whatever happened in between, changes no review and no question, links none again, and commits unless an insert or the end of the poll fails |
| ReviewPoller.CommitsIff | services/ingest/src/review-poller.ts:88-184 | a poll that reaches its loop commits if and only if every insert goes through, no statement that linking issues for a new review fails, and the last statements go through |
| ReviewPoller.SchemaCommitsIff | packages/db/migrations/0009_exception_queue.sql:8-27 | as questions cannot be inserted into this table, a poll commits if and only if no new review of its batch has an ambiguous link |
| ReviewPoller.AbortsForEver | services/ingest/src/review-poller.ts:88-184 | polls that keep fetching one ambiguous review are all rolled back and leave everything as it was |
| ReviewPoller.AmbiguousPollIsStuck | services/ingest/src/review-poller.ts:356-384 | a concrete review with confidence 0.6 for which this happens, at whatever time it is polled |
| ReviewPoller.ManualAlwaysAborts | services/ingest/src/review-poller.ts:186-240 | polls of direct feedback are all rolled back |
| ReviewPoller.KindsAreKnown | services/ingest/src/review-poller.ts:221-240 | every source but the manual one has its own kind, which the column's type knows |
| ReviewPoller.IntegrationsUsed | services/ingest/src/review-poller.ts:186-219 | a poll starts from an active integration of the kind and its property and books to one of the kind and its tenant, and there is none exactly when none is used |
| ReviewPoller.NextPollStart | services/ingest/src/review-poller.ts:164-224 | after a committed poll, whichever rows the unordered selects return, the next poll starts where this one was made exactly when this one stamped the row the next one reads, and otherwise where it would have without it |
| ReviewPoller.SingleIntegrationAdvances | services/ingest/src/review-poller.ts:164-224 | with a single active integration of the kind, belonging to the property, the poll after a committed one starts where that was made |
| ReviewPoller.SharedKindNeverAdvances | services/ingest/src/review-poller.ts:164-224 | with one integration for each of two properties, polls of one may look back thirty days for ever |

## Left out

- RefreshTokens.AuthService.Refresh: does not interleave the statements of two refreshes of the same user, because the step is taken as one transaction; an overlapping refresh could show the sub-select another session's new token.
- RefreshProtocol.SingleFlight: excludes server-side logout and several tabs sharing one store; lost answers and reloads are the subject of `RefreshLoss.dfy`.
- RefreshLoss.PresentedRevokedIffStale: speaks of runs up to the first re-use, which revokes every token of its user and so those of other clients too; a client that has presented a token and is then reloaded may also meet the re-use branch through the first of the two requests.
- LoginLockout.LockoutSpacesFailures: attempts are sequential; concurrent attempts of one user read the same counter and are not modelled.
- TenantContext.Isolation: rollback and cleanup succeed, and callbacks issue no transaction control or settings.
- AiGateway.MinuteBound: the insert of a log row does not set `template_name`, which the schema declares not null; whether an insert fails is left open. The start of the day assumes the database session runs in UTC.
- AuditChain.InsertKeepsIntactIffLast: inserts happen one at a time; two concurrent inserts of one tenant could fork the chain.
- KeysetPaging.PagesTile: the table does not change while it is paged; the encoding of a cursor is a parameter that reads back what it wrote.
- CaseTranslation.TranslateKeys: assignment to the key `__proto__` and the reordering of integer-like keys by JavaScript objects are not modelled; scalars, dates and buffers are opaque.
- PromptSubstitution.LookupDotted: members inherited from prototypes are not modelled; JSON text of composite values is given.
- Preferences.StoreSummarisesHistory: lower-casing is ASCII only; requests do not overlap; evidence links and the polarity or detail text of a reinforced row are left out. The capture pipeline and the schemas package hold the same classifier twice, and the capture and the exception service the same upsert loop; each is modelled once, so `ResolutionEqualsAcceptance` does not guard against one copy changing alone.
- Briefs.BriefStore.GenerateBrief: the query for arrivals and the AI prompt are left out; priorities are well-typed; the status "generating" is never committed, since a request is one transaction.
- Migrations.Migrator.MigrateUp: a single script takes effect as a whole or not at all, also one with several transactions; a script that opens a transaction it does not end is not modelled; whether a script ends the transaction it runs in is a parameter. The same holds for down scripts.
- OfflineQueue.NothingIsLost: the browser's storage is reliable; an upload whose answer is lost counts as refused.
- ReviewPoller.Poller.Run: failures of the two selects of integrations and of the connection, which also roll the poll back, are left out, as are reasons of a link and the candidates' details, which only appear in texts; stored confidences are not rounded.
- Paging of exception items, whose order leads with severity while its cursor omits it, and the guest patch, whose attention-flags clause lacks the mark of its placeholder.
- HTTP servers, hooks, proxying, multipart parsing, logging, object storage, the AI provider's protocol, bcrypt, TOTP, JWT, row-level-security policies and the user interface.
