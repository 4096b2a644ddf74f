# Token lifecycle of an OpenID Connect provider

A Dafny model of the parts of the provider whose correctness depends on more than one
function: refresh-token rotation against grant revocation, the revocation markers that cut
off stateless access tokens, the revoke command, the cache and the file repository all of
this runs on, the authorization-code flow, and account lockout.

`dafny verify dfyconfig.toml` checks the whole project.

## What is modelled

**The lifecycle on the transactional backend** (`Entities`, `Lifecycle*`). A state machine
whose steps are single store accesses: issuing requests, rotations with a snapshot
transaction (buffered writes, commit only if every written document still has the version the
snapshot read, retry otherwise), the three cascades (replay detection, RFC 7009 revocation,
logout) with a row-by-row sweep, user-level sweeps, password resets, TTL collection and cache
eviction. Everything interleaves arbitrarily under a clock that never goes back. The start
state may hold any rows from before grants were persisted. `LifecycleInvariant` states the
invariant, `LifecycleSteps` and `LifecycleMoreSteps` show that each step keeps it, and the
other modules draw the conclusions: `LifecycleTheorems` for persisted grants,
`LifecycleFinality` and `LifecycleCutOff` for every grant, with the exact condition under which
a tear-down is final and a cut-off complete, `LifecycleHonest` and `LifecycleProgress` for the
honest client. `LifecycleLegacy`, `LifecycleUnpersisted` and `LifecycleRevival` are about chains
from before grants were persisted.

**The file backend** (`FileRepository`, `ScopeCodec`, `FileTokens`, `FileRotation`,
`FileBackend`). The repository is a class whose maps are updated in place by loops, with a write
that can fail at every point; the refresh-token store runs on it. `FileRotation` is rotation with
atomic methods and no transactions: conservation holds, and what is lost is stated exactly.
`FileBackend` shows that its steps are what the store's methods do to the stored tokens.

**The cache** (`MemoryCache`, `RateLimit`, `Revocation`). The cache is a class; runs are
sequences of its locked sections in lock order. `Revocation` holds the key families, the two
implementations of the acceptance decision, every cache access of the program, and how long a
marker holds under all of them.

**The commands** (`TokenStores`, `RefreshCommand`, `RevokeCommand`). Refresh, logout and revoke
as methods over the stores, with a failure injected at any step, the failing access applied in
full, in part or not at all. `LifecycleSerial` and `LifecycleCommands` show that a rotation, a
code exchange, a revoke request and the cascades of reuse detection and logout are runs of the
lifecycle's state machine.

**Signing in** (`CodeFlow`, `CodeFlowProofs`, `CodeFlowService`, `Lockout`). Sessions and codes
as use-once entries under arbitrary interleaving, and the commands proved to take the machine's
steps; the failure counter of a user record shared by the two login entries.

Instants are integers in nanoseconds. Hashes, identifiers and random values are opaque; a
fresh value is the number of the request that draws it. In `Lifecycle` and `CodeFlow` the
history fields of the state record what happened and are never read by a step's guard.

## Findings

- For a chain whose grant has no document the grant check waves rotations through. A rotation
  committing between the sweep's choice of rows and its end can leave an unrevoked row
  (`LifecycleLegacy.UnpersistedGrantEscapes`); for every grant, the tear-down is final if and
  only if every row inserted in that interval is revoked when the sweep ends
  (`LifecycleFinality.TearDownExact`). A persisted grant that the cascade has revoked always
  meets the condition (`LifecycleFinality.TearDownIsFinal`).
- Cut-off, for every grant: all access tokens of it that clients hold are refused for good if
  and only if those released since the marker are over by the marker's end
  (`LifecycleCutOff.CutOffExact`). For an unpersisted grant it can be told when the marker is
  written whether any token of it will ever be accepted again: it will not if and only if every
  unrevoked row is expired or invalidated and every rotation under way is futile
  (`LifecycleRevival.UnpersistedCutOff`).
- Without transactions a sweep is final if and only if, when it runs, no request is about to
  save a row of the grant and none may still mint it (`FileRotation.SweepIsFinal`).
- Introspection and the bearer check disagree exactly on a token without jti that passes the
  two other layers: introspection calls it active (`Revocation.VerdictsDiffer`).
- The sessions marker is overwritten, not maximised: a token is refused if and only if its iat
  second is at most that of the invalidation written last (`Revocation.ResetCutOffExact`), so
  the delayed marker of an older reset revives tokens a newer one had cut off
  (`Revocation.DelayedMarkerRevives`).
- A fixed window admits at most 2 * limit - 1 requests in any span of one window, and that
  many are reached (`RateLimit.SpanBound`, `RateLimit.SpanBoundReached`).
- An in-place update of the file repository makes an index lose an item if and only if some
  other item has a value whose entry leads to the updated one and the update gives it up
  (`FileRepository.ReindexedCompleteIff`); indexes are exact up to any point of a run if and only
  if indexed values were unique up to there (`FileRepository.IndexesRefineScan`).

## Model

| member | source | states |
|---|---|---|
| Entities.ResolveExpirySecs | modules/auth/application/define/token_expiration.go:17-22 | A positive lifetime is kept up to a day and cut to a day beyond; without one it is fifteen minutes; all lie within the cap the markers are sized for |
| Entities.GenAccessToken | infrastructure/jwt/jwt_service.go:99-117 | iat is the second of minting; exp is exactly the lifetime later |
| Entities.IssueTokens | modules/auth/application/service/token_issuance.go:27-75 | Access token, refresh token and grant agree on sid, user, client, scope and identifiers; a grant is minted exactly when there was none |
| LifecycleTheorems.StepKeeps | modules/auth/application/command/refresh_token.go:76-239 | Every step of every request, cascade, collector and reset keeps the lifecycle invariant |
| LifecycleTheorems.ReachableInv | modules/auth/application/command/refresh_token.go:76-239 | Every reachable state satisfies the invariant |
| LifecycleFinality.TearDownIsFinal | modules/auth/application/command/refresh_token.go:158-239 | Once a cascade for a persisted grant has revoked it and swept its rows without store error, the grant has no unrevoked row, then or after any further steps, whatever rotations were in flight |
| LifecycleFinality.TearDownExact | modules/auth/application/command/refresh_token.go:158-197 | For every grant, persisted or not: after a sweep without store error no row of it is ever unrevoked again if and only if every row a rotation inserted during the sweep is revoked when it ends |
| LifecycleFinality.StaysDown | modules/auth/application/command/refresh_token.go:216-239 | A grant without an unrevoked row never gets one again, in any run: no rotation of it commits and no token of it is released |
| LifecycleTheorems.CutOff | modules/auth/application/service/revocation_cache.go:41-43 | After such a cascade also writes its marker, every access token with that sid ever delivered, before or later, is refused at every later instant |
| LifecycleTheorems.MarkerOutlives | modules/auth/application/define/token_expiration.go:5-15 | The marker outlives every delivered access token of the grant |
| LifecycleCutOff.TokenRefusedForGood | modules/auth/adapter/in/revocation_checker.go:29-34 | An access token is refused in every state that can follow if and only if it has expired or expires by the end of its grant's marker |
| LifecycleCutOff.CutOffExact | modules/auth/application/service/revocation_cache.go:38-43 | For every grant, at any time after its marker: all tokens of it that clients hold are refused for good if and only if those released by rotations since then are over by the marker's end |
| LifecycleCutOff.CutOffWhenDown | modules/auth/application/service/revocation_cache.go:38-43 | If the grant has no unrevoked row when its marker is written, every token of it ever delivered is refused in every later state, persisted or not |
| LifecycleRevival.UnpersistedGrantRevives | modules/auth/application/command/refresh_token.go:185-197 | Every reachable state with a usable row of an unpersisted grant has a run in which a token of that grant is delivered and accepted |
| LifecycleUnpersisted.StaysStuck | modules/auth/application/command/refresh_token.go:92-145 | A grant without a document whose unrevoked rows are expired or invalidated and whose rotations under way are futile stays so in every run, and all it releases is over in time |
| LifecycleRevival.UnpersistedCutOff | modules/auth/application/command/refresh_token.go:185-197 | When the marker of an unpersisted grant is written, every token of it that clients ever hold will be refused if and only if all its unrevoked rows are expired or invalidated and all rotations of it under way are futile |
| LifecycleTheorems.GrantOutlivesRows | modules/auth/domain/entity/grant.go:51-58 | A stored grant expires later than every row under it, by at least the margin, although extending overwrites |
| LifecycleTheorems.NeverFailsOpen | modules/auth/application/command/refresh_token.go:189-225 | A rotation of a persisted grant's token commits only through the grant check of an unrevoked grant, never because the document was collected |
| LifecycleTheorems.OneLiveRow | modules/auth/application/command/refresh_token.go:216-231 | A persisted grant never has two unrevoked rows |
| LifecycleTheorems.RotatedAtMostOnce | modules/auth/adapter/out/mongo_refresh_token_repository.go:81-97 | Each refresh token is rotated at most once; the successor belongs to the same chain and grant, and its access token names that grant, user and scope |
| LifecycleTheorems.ChainConstancy | modules/auth/domain/entity/tokens.go:59-70 | All rows of a persisted grant share user, client, scope, device and authentication time; a delivered access token has its row's grant, user and scope |
| LifecycleTheorems.ClientBinding | modules/auth/application/command/refresh_token.go:97-101 | In every reachable state, every committed rotation was presented by the client its chain is bound to, or the chain is bound to none; the successor has the same binding |
| LifecycleTheorems.AuthorizeExact | modules/auth/application/command/refresh_token.go:97-110 | A found token passes exactly if it is bound to the presenting client or to none and its chain was authenticated after any invalidation of its user |
| LifecycleTheorems.FindExact | modules/auth/application/command/refresh_token.go:153-179 | A rotation starts exactly on an unrevoked, unexpired row, and reuse detection exactly on a revoked row with a grant |
| LifecycleTheorems.TransactionChecksExact | modules/auth/application/command/refresh_token.go:189-225 | When grant check and conditional revocation pass on the snapshot, and what the check writes |
| LifecycleTheorems.RevokedForever | modules/auth/adapter/out/mongo_refresh_token_repository.go:81-111 | No row becomes unrevoked, nor comes back after collection |
| LifecycleTheorems.ResetEndsChains | modules/auth/application/command/refresh_token.go:103-110 | After a password reset, in every later state, the user check refuses every rotation of a chain authenticated by then, descendants included |
| LifecycleTheorems.ResetBoundsCommits | modules/auth/application/command/refresh_token.go:103-110 | Every commit of such a chain had passed its user check by the reset |
| LifecycleHistory.SweepIsScoped | modules/auth/adapter/out/mongo_refresh_token_repository.go:106-111 | A sweep for one grant changes no row of another |
| LifecycleHonest.HonestProgress | modules/auth/application/command/refresh_token.go:153-208 | In every run that leaves a session to a client presenting its newest token serially, that client never triggers replay detection nor fails the user check, and the grant check refuses it exactly when the token has been expired for the whole margin |
| LifecycleHonest.GrantCheckExact | modules/auth/domain/entity/grant.go:47-58 | The exact condition under which an honest rotation fails the grant check |
| LifecycleProgress.HonestCommit | modules/auth/application/command/refresh_token.go:216-231 | While its token has not expired, the honest client's rotation passes the grant check and the conditional revocation and meets no write conflict, so it can commit |
| LifecycleLegacy.UnpersistedGrantEscapes | modules/auth/application/command/refresh_token.go:185-197 | A run from the start state in which an error-free cascade leaves an unrevoked row of a grant without a document |
| FileRotation.Conservation | modules/auth/adapter/out/file_refresh_token_repository.go:84-120 | For each grant, unrevoked rows plus requests between revoke and save never exceed one, under every interleaving of repository methods |
| FileRotation.RotatedOnce | modules/auth/adapter/out/file_refresh_token_repository.go:92-100 | Each token lets at most one rotation through, with or without a grant |
| FileRotation.SweepIsFinal | modules/auth/adapter/out/file_refresh_token_repository.go:112-120 | Without transactions, no row of the grant is ever unrevoked after a sweep if and only if no request was about to save one and none could still mint the grant |
| FileRotation.SweepEscaped | README.md:392-392 | Otherwise there is a continuation in which a row of the swept grant is saved unrevoked |
| FileBackend.UserSweepIsAStep | modules/auth/adapter/out/file_refresh_token_repository.go:102-110 | What RevokeAllForUser does to the stored tokens is the rotation machine's sweep of that user |
| FileBackend.GrantSweepIsAStep | modules/auth/adapter/out/file_refresh_token_repository.go:112-120 | What RevokeAllForGrant does to the stored tokens is the rotation machine's sweep of that grant |
| FileBackend.RevokeIsAStep | modules/auth/adapter/out/file_refresh_token_repository.go:92-100 | The conditional revocation has a row to revoke exactly when the machine's step is enabled, and changes the stored tokens as the step changes the rows |
| FileBackend.SaveIsAStep | modules/auth/adapter/out/file_refresh_token_repository.go:84-86 | Saving a token under a new identifier and hash is the machine's insertion of a row |
| FileRepository.IndexesRefineScan | infrastructure/repository/file/file_repository.go:172-231 | In every run from opening, indexes never name a wrong item; up to any point all indexes were the inverse of their fields if and only if indexed values were unique |
| FileRepository.LookupEqualsScan | infrastructure/repository/file/field.go:13-24 | Through an inverse index the answer is the scan's, and the scan has only that answer |
| FileRepository.ReindexedCompleteIff | infrastructure/repository/file/file_repository.go:208-219 | When an in-place update makes an index lose an item, exactly |
| FileRepository.SharedValueIsLost | infrastructure/repository/file/file_repository.go:208-219 | Whenever two items share a value and the one the index names gives it up, the index misses the other although the scan finds it |
| FileRepository.Scan | infrastructure/repository/file/field.go:13-24 | Finds an item with the value if there is one; fails only on an unreadable field |
| FileRepository.FileStore.WriteToFile | infrastructure/repository/file/file_repository.go:265-290 | The store file holds the old or the new documents whatever fails; a failed write leaves no temporary file of its own |
| FileRepository.Load | infrastructure/repository/file/file_repository.go:78-90 | Opening decodes every document, and fails exactly if one does not decode |
| FileRepository.DocsDecode | infrastructure/repository/file/file_repository.go:233-251 | What is written decodes to the items in memory, for a round-tripping codec |
| FileRepository.FileRepository.BuildIndex | infrastructure/repository/file/file_repository.go:194-206 | A built index is sound and complete; building fails exactly when an item's field cannot be read |
| FileRepository.FileRepository.FindByField | infrastructure/repository/file/file_repository.go:172-192 | At most one index is built, the answer is that index's, and no stale entry is ever met |
| FileRepository.FileRepository.UpdateIndexesForItem | infrastructure/repository/file/file_repository.go:208-219 | Every index loses the entries of the item and gains its current value |
| FileRepository.FileRepository.RebuildIndexes | infrastructure/repository/file/file_repository.go:221-231 | Every index is rebuilt sound and complete, or dropped when it cannot be |
| FileRepository.FileRepository.Save | infrastructure/repository/file/file_repository.go:159-170 | File and memory change together or not at all, and the file decodes to memory |
| FileRepository.FileRepository.UpdateByField | infrastructure/repository/file/file_repository.go:110-130 | Which of the four outcomes occurs, and that any failure leaves items and file as before |
| FileRepository.FileRepository.CreateIfFieldNotExists | infrastructure/repository/file/file_repository.go:15-32 | Conflict exactly when the value is taken; any failure leaves items and file as before |
| FileRepository.FileRepository.UpdateAll | infrastructure/repository/file/file_repository.go:132-157 | All items are updated or none; it fails exactly on a callback error or on a failed write of an actual change |
| ScopeCodec.FieldsOfJoin | modules/auth/domain/entity/scope.go:44-46 | Splitting at white space undoes joining with blanks |
| ScopeCodec.ScopeRoundTrip | modules/auth/domain/entity/scope.go:23-76 | Every scope survives its string form, order and repetitions included |
| ScopeCodec.NewScopeExact | modules/auth/domain/entity/scope.go:23-34 | A scope is accepted exactly if it is not empty and holds nothing but openid, email, profile and phone |
| FileTokens.TokenRoundTrip | modules/auth/adapter/out/file_refresh_token_repository.go:32-66 | A refresh token comes back from its document unchanged |
| FileTokens.DocReadTwice | modules/auth/adapter/out/file_refresh_token_repository.go:32-66 | Reading and writing back a document only normalises its scope |
| FileTokens.Open | modules/auth/adapter/out/file_refresh_token_repository.go:72-82 | Opening fails exactly on a document whose scope cannot be read; otherwise the store holds what the file decodes to and is valid |
| FileTokens.RevokingByHash | modules/auth/adapter/out/file_refresh_token_repository.go:92-100 | Conditional revocation through the index changes exactly one row with that hash, unrevoked and not past its expiry, and with unique hashes finds it whenever there is one |
| FileTokens.FileRefreshTokenRepository.RevokeByTokenHash | modules/auth/adapter/out/file_refresh_token_repository.go:92-100 | The same of the method, with a write failure leaving everything as it was |
| FileTokens.FileRefreshTokenRepository.RevokeAllForUser | modules/auth/adapter/out/file_refresh_token_repository.go:102-110 | Every unrevoked row of the user is revoked, no other row changes, or nothing changes |
| FileTokens.FileRefreshTokenRepository.RevokeAllForGrant | modules/auth/adapter/out/file_refresh_token_repository.go:112-120 | Every unrevoked row of the grant is revoked, no other row changes, or nothing changes |
| MemoryCache.Refines | infrastructure/cache/memory.go:43-179 | In every interleaving of locked sections every answer is that of a map whose entries are live exactly while now is at most their expiry; lazy deletion, janitor and relocking are unobservable |
| MemoryCache.ActRefines | infrastructure/cache/memory.go:43-179 | One locked section answers as the timed map does and keeps the two in agreement |
| MemoryCache.SetBetweenLocks | infrastructure/cache/memory.go:139-156 | A value set between the two locks of a read is answered and stays |
| MemoryCache.SetIsAnswered | infrastructure/cache/memory.go:43-156 | In every run, after a value is set and until its key is written or taken again, a read or take answers it if and only if now is at most the set instant plus the ttl, and always without a positive ttl; a shared read may leave the answer to the exclusive one only once the ttl is reached |
| MemoryCache.TakenAtMostOnce | infrastructure/cache/memory.go:87-106 | Each value set is taken by at most one GetAndDelete |
| MemoryCache.MemoryCache.Set | infrastructure/cache/memory.go:43-52 | The new entry lives for its ttl from now, for ever without a positive one; other entries untouched |
| MemoryCache.MemoryCache.ReadShared | infrastructure/cache/memory.go:139-146 | Answers under the shared lock only what the timed map answers, and says when it must look again |
| MemoryCache.MemoryCache.ReadExclusive | infrastructure/cache/memory.go:148-156 | Answers what is live now and deletes only what has expired now |
| MemoryCache.MemoryCache.GetAndDelete | infrastructure/cache/memory.go:87-106 | Answers the live value and removes the entry |
| MemoryCache.MemoryCache.IncrWindow | infrastructure/cache/memory.go:114-137 | Counts within the window, opens a new one when it is over, and refuses a value that is no counter |
| MemoryCache.MemoryCache.DeleteExpired | infrastructure/cache/memory.go:171-179 | Exactly the expired entries go |
| RateLimit.DistributedRateLimit | handler/web/middleware/rate_limit.go:17-47 | The admission decision and the counter it leaves, errors and missing addresses included |
| RateLimit.WindowShape | infrastructure/cache/memory.go:114-137 | Over any sequence of requests on one key, counts run 1, 2, 3 within each window and windows open more than a window apart |
| RateLimit.SpanBound | handler/web/middleware/rate_limit.go:26-46 | Any stretch of requests no longer than a window admits at most 2 * limit - 1, none for a limit below 1 |
| RateLimit.SpanBoundReached | handler/web/middleware/rate_limit.go:26-46 | That bound is reached for every limit and window |
| Revocation.KeyInjective | modules/auth/application/define/cache_keys.go:9-38 | No two entries of the cache share a key, within a family or across families |
| Revocation.OnlyMarksWrite | modules/auth/application/define/cache_keys.go:16-38 | No cache access but the marking ones writes, takes or counts a marker's key |
| Revocation.SameVerdict | modules/auth/application/query/introspect_token.go:54-78 | Introspection and the bearer check agree on every token with a jti, for every cache content and every read failure |
| Revocation.VerdictsDiffer | modules/auth/adapter/in/revocation_checker.go:24-54 | The exact condition under which they disagree, and in which direction |
| Revocation.MarkHolds | modules/auth/application/service/revocation_cache.go:32-53 | A marker stays and keeps its worth through every sequence of cache accesses until its term |
| Revocation.MarkIsExact | modules/auth/application/service/revocation_cache.go:32-53 | Through every sequence of cache accesses that does not mark the same again, a marker is found exactly until its end: the expiry of the blacklisted token, or a day after marking |
| Revocation.GrantCutOff | modules/auth/adapter/in/revocation_checker.go:29-34 | A grant marker refuses every access token minted under the grant by then until it expires, whatever the cache is used for and whichever reads fail |
| Revocation.LatestMarkerStays | modules/auth/application/service/revocation_cache.go:45-53 | Through every sequence of cache accesses the sessions marker holds the second of the invalidation written last, and is gone only when every token that second covers has expired |
| Revocation.ResetCutOffExact | modules/auth/adapter/in/revocation_checker.go:35-54 | After a reset's marker, an unexpired token that nothing else refuses is refused if and only if its iat second is at most that of the invalidation written last |
| Revocation.ResetCutOff | modules/auth/adapter/in/revocation_checker.go:35-54 | From the reset's marker on, every access token with iat second at most the reset's second is refused until it expires, whichever reads fail, if the invalidation written last is of no earlier second |
| Revocation.DelayedMarkerRevives | modules/auth/application/service/revocation_cache.go:51-53 | Whenever the invalidation written last is of a second before the token's iat, the token is accepted although a covering reset was marked |
| Revocation.BlacklistCutOff | modules/auth/application/service/revocation_cache.go:32-36 | A blacklisted token is refused from then on |
| Revocation.RevocationCache.MarkGrant | modules/auth/application/service/revocation_cache.go:41-43 | The marker is present and lives its full term |
| Revocation.RevocationCache.MarkSessions | modules/auth/application/service/revocation_cache.go:51-53 | The marker holds the reset's second and lives its full term |
| RevokeCommand.CleanAttempt | modules/auth/application/command/revoke_token.go:129-173 | A failure-free request tears the grant down from any state of the stores; only a token expired and never revoked is passed over, with nothing changed |
| RevokeCommand.RetrySafe | modules/auth/application/command/revoke_token.go:129-173 | After any failing requests a failure-free one completes exactly if the row was revoked at first or some request asked before its expiry; then the stores look as after a failure-free first request, and otherwise nothing ever changed |
| RevokeCommand.RevokedIffReached | modules/auth/application/command/revoke_token.go:148-156 | After any requests the row is revoked exactly if it was at first or one reached it before its expiry |
| RevokeCommand.TriesPartly | modules/auth/application/command/revoke_token.go:148-169 | Failing requests change nothing but the grant, its rows, the submitted row and the grant's marker |
| RevokeCommand.RefreshPermitted | modules/auth/application/command/revoke_token.go:77-127 | Whatever fails, a bearer caller's request on a stored refresh token changes only the submitted row, the rows of its grant, that grant and its marker; on another user's token it answers success and changes nothing |
| RevokeCommand.BlacklistedPermitted | modules/auth/application/command/revoke_token.go:175-197 | Blacklisting adds the entry of an access token the caller may submit and nothing else, and that token is refused from then on |
| RevokeCommand.RevokeTokenUseCase.RevokeConfirmedRefreshToken | modules/auth/application/command/revoke_token.go:148-173 | The imperative cascade, with early returns, does what the request's specification says for every failure |
| TokenStores.TokenStore.RevokeByTokenHash | modules/auth/adapter/out/mongo_refresh_token_repository.go:81-97 | The conditional update changes the row exactly when it is unrevoked and unexpired, and says so |
| TokenStores.TokenStore.RevokeAll | modules/auth/adapter/out/mongo_refresh_token_repository.go:99-111 | The row-by-row sweep revokes exactly the selected unrevoked rows of the grant or user |
| TokenStores.TokenStore.RevokeGrant | modules/auth/adapter/out/mongo_grant_repository.go:65-79 | Only an unrevoked grant document is changed, and only in its revocation |
| RefreshCommand.BestEffortIndependent | modules/auth/application/command/logout.go:77-101 | Each step of a best-effort cascade takes effect whatever became of the others, all three tear the grant down, and no other session is touched |
| RefreshCommand.RunBestEffort | modules/auth/application/command/refresh_token.go:158-165 | The cascade of reuse detection and logout goes on after every failing step and leaves what its specification says |
| RefreshCommand.RotationSound | modules/auth/application/command/refresh_token.go:125-145 | The stores stay sound wherever a rotation ends: before its transaction, with its minted grant saved, or committed |
| RefreshCommand.SwapSound | modules/auth/application/command/refresh_token.go:216-231 | Replacing a row by its successor with its grant extended keeps one unrevoked row per grant and every grant outliving its rows |
| RefreshCommand.AcceptsExactly | modules/auth/application/command/refresh_token.go:92-145 | A refresh is accepted if and only if row, client, user and grant allow it and no access it makes fails, each said by field |
| RefreshCommand.RotatedFields | modules/auth/application/command/refresh_token.go:114-145 | By field, what a rotation leaves: the successor with the chain's user, client, scope, device and authentication time, the old row revoked, every other row as before, the grant covering the successor by the margin, a minted grant of the chain's user |
| RefreshCommand.SweptForUserExact | modules/auth/application/command/refresh_token.go:166-171 | The sweep for a user touches no row of another user and nothing but revocations of unrevoked rows; without error every row of the user is revoked |
| RefreshCommand.LoggedOutIsRefused | modules/auth/application/command/logout.go:58-110 | A token whose blacklist entry was written is refused from then on, whether or not the marker follows and whichever reads fail |
| RefreshCommand.RefreshTokenUseCase.FindActiveRefreshToken | modules/auth/application/command/refresh_token.go:153-179 | Exactly a valid row is found; exactly a revoked one triggers the cascade, by grant or, without one, by user |
| RefreshCommand.RefreshTokenUseCase.CheckAndExtendGrant | modules/auth/application/command/refresh_token.go:189-208 | When the check passes, and that only a passing check extends the grant |
| RefreshCommand.RefreshTokenUseCase.UpdateRefreshToken | modules/auth/application/command/refresh_token.go:216-239 | The transaction commits exactly when grant and row allow it and nothing fails; otherwise every write is rolled back |
| RefreshCommand.RefreshTokenUseCase.Execute | modules/auth/application/command/refresh_token.go:76-145 | A refresh succeeds exactly for an unrevoked, unexpired row presented by its client (any client if it has none) with its user present and not invalidated since, its stored grant valid and no access of the request failing; by field, the successor row and access token; how the stores change; what each refusal leaves, replay with and without a grant included; sound stores stay sound |
| RefreshCommand.LogoutUseCase.RevokeGrantTokens | modules/auth/application/command/logout.go:77-91 | Ends the caller's session and no other, or all of the user's chains for a token without sid |
| RefreshCommand.LogoutUseCase.RevokeIfAuthenticated | modules/auth/application/command/logout.go:58-68 | Nothing happens without a token that parses; otherwise it is blacklisted and its session, or without sid its user's chains, are ended |
| LifecycleSerial.ExecuteIsARun | modules/auth/application/command/refresh_token.go:76-239 | Whenever the command rotates a token, the state machine has a run of that request alone leaving the same rows and grants and delivering the same access token |
| LifecycleCommands.ExchangeIssues | modules/auth/application/command/exchange_code.go:84-129 | A delivered code exchange is the machine's issuing run for the code's user, the exchanging client and the code's scope: same row, grant and access token |
| LifecycleCommands.ReplayIsARun | modules/auth/application/command/refresh_token.go:158-165 | The failure-free cascade of reuse detection is a run of the machine: same rows and grants, and the marker with its term |
| LifecycleCommands.LogoutIsARun | modules/auth/application/command/logout.go:77-101 | So is that of logout |
| LifecycleCommands.RevokeIsARun | modules/auth/application/command/revoke_token.go:148-173 | So is a failure-free revoke request, passed over exactly as the command passes it over |
| LifecycleCommands.CascadeErrorsExact | modules/auth/application/command/revoke_token.go:148-169 | A store error ends the cascade of the revoke command and leaves the rest to a retry; reuse detection and logout go on |
| RevokeCommand.RevokeTokenUseCase.BlacklistAccessToken | modules/auth/application/command/revoke_token.go:175-197 | When a token is blacklisted, when that fails, and what it leaves in the stores |
| RevokeCommand.RevokeTokenUseCase.Execute | modules/auth/application/command/revoke_token.go:77-127 | The answer and the stores do not depend on the type hint, whatever fails, unless the token is both a stored refresh token and an access token; then it is taken for what the hint says. A bearer caller changes nothing but its own tokens' rows, grants and entries, and nothing at all with another user's refresh token; a permitted failure-free request tears the grant down, and an access token answered with success is refused from then on |
| CodeFlowProofs.StepKeeps | modules/auth/application/command/create_auth_code.go:42-119 | Every step of the code flow keeps its invariant |
| CodeFlowProofs.AttemptsBounded | modules/auth/domain/entity/auth_request.go:74-80 | One session allows at most three credential evaluations in every interleaving |
| CodeFlowService.ThreeAttempts | modules/auth/domain/entity/auth_request.go:74-80 | For every well-formed authorize request a run evaluates credentials three times on its session |
| CodeFlowService.WrongPassword | modules/auth/application/command/create_auth_code.go:103-113 | The first two wrong passwords leave the session to be taken again for ten more minutes; the third does not |
| CodeFlowProofs.OneCodePerSession | modules/auth/application/command/create_auth_code.go:45-77 | One session yields at most one code |
| CodeFlowProofs.OneTokenSetPerCode | modules/auth/application/command/exchange_code.go:131-140 | One code yields at most one token set |
| CodeFlowProofs.TokensHaveProvenance | modules/auth/application/command/exchange_code.go:66-78 | Every token set goes back to an earlier authorize of the same client, redirect URI and scope whose challenge the verifier meets (a public client always has one), and to a verified sign-in of its user on that session in between |
| CodeFlowService.CodeFlowCommands.Authorize | modules/auth/application/query/authorize.go:50-113 | A session is opened exactly for a well-formed request of a registered client and redirect URI |
| CodeFlow.AuthorizesExact | modules/auth/application/query/authorize.go:50-113 | Which requests open a session, said of the query alone: registered client and redirect URI, response type code, a supported scope with openid, PKCE parameters in order and present for a public client, bounded state and nonce |
| CodeFlow.ProtocolErrorExact | modules/auth/application/query/authorize.go:91-105 | When the error is about the response type and when about the scope |
| CodeFlowService.CodeFlowCommands.CreateAuthCode | modules/auth/application/command/create_auth_code.go:42-119 | The command takes the machine's steps: the session is spent by the attempt and comes back only after wrong credentials with attempts left; a code implies a verified sign-in |
| CodeFlowService.CodeFlowCommands.Conclude | modules/auth/application/command/create_auth_code.go:63-113 | The code carries the signed-in user and its session's client, redirect URI, scope, nonce and challenge for five minutes; after wrong credentials the session comes back counted, below three |
| CodeFlowService.CodeFlowCommands.SaveRefreshToken | modules/auth/application/command/exchange_code.go:118-129 | The grant is saved first, aligned with the token it covers, and stays if the token cannot be saved |
| CodeFlowService.CodeFlowCommands.ExchangeCode | modules/auth/application/command/exchange_code.go:50-101 | Tokens are delivered exactly for an unexpired code of the exchanging client, redirect URI and verifier whose user exists and whose grant and row are saved; by field, row, grant and access token are of the code's user, the client and the code's scope under one grant; all else in the stores stays; the code is spent by the attempt |
| CodeFlowService.RedeemsExact | modules/auth/application/command/exchange_code.go:62-78 | A code is redeemed exactly if it is held, unexpired, of that client and redirect URI, and its challenge is met |
| CodeFlowService.IssuedFields | modules/auth/application/command/exchange_code.go:84-129 | By field, what an exchange stores and delivers: one user, one client, one scope and one grant throughout |
| CodeFlowService.SignInIsARun | modules/auth/application/command/create_auth_code.go:42-119 | A sign-in alone is a stretch of a run of the state machine, from any state |
| CodeFlowService.ExchangeIsARun | modules/auth/application/command/exchange_code.go:50-101 | So is an exchange |
| Lockout.LockoutIsCappedPower | modules/auth/domain/entity/user.go:143-150 | The lockout is 2^k minutes capped at an hour for every excess k |
| Lockout.SumClosedForm | modules/auth/domain/entity/user.go:143-150 | The first k lockouts add up to 2^k - 1 minutes up to k = 6 and to 63 + 60 (k - 6) from there |
| Lockout.User.RecordFailedLogin | modules/auth/domain/entity/user.go:129-135 | The new counter and lock |
| Lockout.UserRepository.VerifyCredentials | modules/auth/application/command/create_auth_code.go:90-142 | Locked accounts are refused uncounted, failures counted, successes reset the counter and the lock, all only as far as saved |
| Lockout.UserRepository.GetToken | modules/auth/application/query/get_token.go:56-81 | The same verdict and the same record for the password grant |
| Lockout.CounterExact | modules/auth/domain/entity/user.go:122-141 | In every serial run of logins, successes included, the counter is the number of failures judged since the last success, and the lock is set exactly from the fifth of those, to the last of them plus its lockout |
| Lockout.VerdictExact | modules/auth/domain/entity/user.go:122-150 | After any such run a login is refused as locked exactly while that lockout lasts, and a matching one is admitted exactly otherwise |
| Lockout.LockoutBound | modules/auth/domain/entity/user.go:122-150 | In every serial run of logins through either entry, of the failures since the last success number 5 + k comes no earlier than number 5 plus the first k lockouts, 63 + 60 (k - 6) minutes for k at least 6 |
| Lockout.BoundIsTight | modules/auth/domain/entity/user.go:122-150 | For every k a run reaches that bound |

## Left out

- HTTP routing, binding, cookies, HTML, CORS, metrics, logging, mail, configuration: no deep invariant.
- JWT signing and parsing, bcrypt, SHA-256, S256: a parsed token is a claims record that is rejected once now reaches exp, hashes are opaque values, S256 is a function parameter.
- The Mongo and Redis drivers: only single-document atomicity, conditional update, snapshot reads, write conflict and retry, and TTL deletion at any time after expiry are modelled; truncation of stored instants to milliseconds is not.
- Client authentication and the branching on its failure; the revoke, exchange and refresh requests of the model have an authenticated client.
- The concurrency theorems are about state machines whose steps are single store accesses; the methods beside them run one request at a time. LifecycleSerial and LifecycleCommands relate the two for a clock that stands still during the request.
- The token-issuing half of the password grant, which saves its grant and token as the code exchange does, is in the lifecycle's state machine only.
- Grants under concurrency on the file backend: its unit of work is a no-op, so only conservation and the exact limits of a sweep are proved there.
- LifecycleTheorems.ResetBoundsCommits: a rotation whose user check came before the reset may still commit, as in the source; its successor can no longer be rotated.
- Overlapping read-modify-write saves of one user record by different commands: Lockout.LockoutBound is about logins one after the other.
- Aliasing of entities that callers obtain from the file repository and then change: entities are values.
- JSON decoding of cached values into a destination, other than that a sessions marker which is no integer fails to decode.
- The device identifier of a grant and the creation time of documents other than refresh tokens, which nothing reads.
- Normalisation of redirect URIs at the binding layer, and byte lengths as opposed to character lengths of challenge, state and nonce.
- The 64-bit range of counters and instants.
- Registration, profile, e-mail change and forgot-password commands, discovery document and key sets: each is settled by reading one branch.
