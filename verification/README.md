# Ibex control plane: a verified model

This project models, in Dafny, the parts of the Ibex services that decide money, identity and evidence, and proves
what those parts are for. Everything is stated for all inputs and all runs: a run is any finite sequence of atomic steps
(a SQL transaction or statement, one Redis command, one section under a mutex, one LRU operation, a clock tick), taken by
any number of callers in any order.

- `BudgetLedger` - claims, settlements and expiry of budget reservations (`packages/budgetledger`).
- `IdempotencyLedger`, `RedisStore` - the PostgreSQL and Redis idempotency ledgers (`packages/idempotency`).
- `AuthIndexes`, `AuthCache` - the token cache with its tombstones, indexes and two-generation filter (`packages/authcache`).
- `BillingCache`, `ModelPolicyCache`, `ModelPolicyPoller` - the two generation caches and the epoch poller
  (`packages/billing`, `packages/modelpolicy`).
- `FactWriter`, `CostEstimate` - the usage fact buffer and the checked cost arithmetic (`packages/billing`).
- `OutboxRow`, `OutboxWriter`, `OutboxRelay` - the evidence outbox, from the writer to the sink (`packages/evidenceoutbox`).
- `JsonNumber`, `NumericText`, `TextOrder`, `JsonbText`, `PrivacyAudit` - canonical jsonb text and the audit hash chain
  (`packages/privacyaudit`).
- `Binary64`, `PolicySnapshot` - the integers canonical JSON prints, and issuing and verifying signed policy snapshots
  (`packages/canonicaljson`, `packages/policysnapshot`).

Two forms stand side by side where the source changes state: functions on values, about which the theorems over runs are
proved, and classes whose methods follow the source statement by statement and are proved equal to those functions.

Several promises turn out to hold only under a condition. Each is settled with an exact condition and a witness:

- A claim keeps the budget cap if and only if it does not pass the admission test on a sum that wraps int64
  (`ClaimKeepsCapExactly`, `WrappedSumOverbooks`).
- A revoked token's cached result is handed out if and only if its expiry is read before its end, both checks of the token
  read the clock at or after the end of its tombstone and its organization is not blocked, and likewise for a suspended
  organization; such a call exists and straddles the tombstone's end
  (`StalePassesExactly`, `LeakOnlyAcrossTombstoneEnd`, `LeakIsReachable`, `LeakFreeExactly`).
- The model policy cache hands out a stale snapshot exactly when an eviction dropped a generation during the load
  (`StaleExactlyWhenDropped`, `StaleHandOutReachable`). Short of that, a poller's pass leaves only the store's epoch served
  if and only if it invalidates the organization or no load is under way that can still install another epoch; the nil
  organization it cannot invalidate (`PollSettlesExactly`, `BothReachable`).
- A failed flush drops only the newest usage facts exactly when flushes do not overlap (`DropsNewestExactly`).
- A written evidence row passes the relay's checks exactly when its class is metadata, it has a fence and its request id is
  not blank; the writer accepts an unclassified run and a request id that is a space (`WrittenRowsDeliverable`,
  `PersistsExactly`, `WriterAcceptsMore`).
- Canonical number text keeps the value, and is PostgreSQL's own text if and only if the exponent leaves no redundant zero
  in front and the number is not a negative zero: 0.5e1 is written 05, and -0e0 and -0 are written -0
  (`FormatIsPostgresExactly`, `LeadingZeroKept`, `NegativeZeroKept`).
- Verified policy claims are the issued ones if and only if each of their integers is the one canonical JSON prefers
  among those that read as the same double. All permissions up to b come back as issued if and only if b is at most 2^53,
  and 2^53 + 1 comes back as 2^53 (`ClaimsKeptExactly`, `KeptExactly`, `PermissionsKeptUpTo`, `LargePermissionsChange`).

Verify with `dafny verify dfyconfig.toml`.

## Model

| member | source | states |
|---|---|---|
| `BudgetLedger.FencedAlways` | packages/budgetledger/ledger.go:199-229 | In every run no (row id, version) is granted twice or settled twice, and each settlement follows the grant of the same token. |
| `BudgetLedger.SettledMeansOwn` | packages/budgetledger/ledger.go:415-483 | Finalize or Release returns no error only if this token's own transition with these very values is in the history, now or earlier. |
| `BudgetLedger.SupersededForever` | packages/budgetledger/ledger.go:461-483 | A token whose key was reclaimed or whose hold expired is refused as closed in every continuation. |
| `BudgetLedger.OpenOrSuperseded` | packages/budgetledger/ledger.go:199-225 | Whatever step another party takes, an open token stays open or is superseded for good. |
| `BudgetLedger.VersionsRise` | packages/budgetledger/ledger.go:191-225 | Each step leaves a row alone or moves it to exactly the next version. |
| `BudgetLedger.CapKeptAlways` | packages/budgetledger/ledger.go:253-389 | In every run without a claim that passes on a wrapped sum over the cap, the live holds of each period stay within the headroom its latest grant read, for any lease, clock disagreement and mix of callers. |
| `BudgetLedger.CapSafety` | packages/budgetledger/ledger.go:313-389 | From an empty table, in every run without such a claim, a period whose cap and spend are those its latest grant read is never overbooked. |
| `BudgetLedger.ClaimKeepsCapExactly` | packages/budgetledger/ledger.go:253-389 | From any state that keeps the cap, a claim keeps it if and only if it does not pass on a wrapped sum over the cap, for a new key and for a reclaimed one alike. |
| `BudgetLedger.OverCapExact` | packages/budgetledger/ledger.go:366-389 | The int64 admission test equals the intended one exactly when the sum fits or wraps all the way above the cap. |
| `BudgetLedger.WrappedSumOverbooks` | packages/budgetledger/ledger.go:366-389 | Such a run exists from an empty table: with anything spent, one claim of the largest int64 amount is granted and overbooks the period, whatever the cap. |
| `BudgetLedger.RemainingIsUsable` | packages/budgetledger/ledger.go:404-410 | The remaining amount of a refusal is exact: right after it a new key is admitted if and only if its estimate is at most that amount. |
| `BudgetLedger.HoldsShrink` | packages/budgetledger/ledger.go:185-190 | Live holds are never negative and only shrink as the clock advances. |
| `BudgetLedger.PostgresLedger.constructor` | packages/budgetledger/ledger.go:120-131 | A ledger starts with the given tables and the default lease when none is given. |
| `BudgetLedger.PostgresLedger.Claim` | packages/budgetledger/ledger.go:234-251 | Validation, then exactly the claim transaction's effect and outcome. |
| `BudgetLedger.PostgresLedger.ClaimInTx` | packages/budgetledger/ledger.go:253-274 | The transaction's branch on period and existing key gives the specified state and outcome. |
| `BudgetLedger.PostgresLedger.ClaimFresh` | packages/budgetledger/ledger.go:366-389 | A new key is admitted or refused against the active holds and inserted once. |
| `BudgetLedger.PostgresLedger.InsertReservation` | packages/budgetledger/ledger.go:191-198 | The insert takes effect exactly when the key is free and numbers the row and version. |
| `BudgetLedger.PostgresLedger.ResolveExisting` | packages/budgetledger/ledger.go:313-334 | A used key conflicts, is still held, is refused over cap with its stale hold expired, or is reset to its caller. |
| `BudgetLedger.PostgresLedger.ExpireStaleClaim` | packages/budgetledger/ledger.go:342-351 | The stale claim's row becomes expired one version up and nothing else changes. |
| `BudgetLedger.PostgresLedger.ResetHeldRow` | packages/budgetledger/ledger.go:353-364 | The row is held again by the new caller one version up. |
| `BudgetLedger.PostgresLedger.Finalize` | packages/budgetledger/ledger.go:415-427 | Rejects bad arguments and otherwise settles with the final amount and marker. |
| `BudgetLedger.PostgresLedger.Release` | packages/budgetledger/ledger.go:439-451 | Rejects bad tokens and otherwise settles as released. |
| `BudgetLedger.PostgresLedger.Settle` | packages/budgetledger/ledger.go:461-483 | The guarded update, or an identical repeat, or a closed claim, as the specification says. |
| `IdempotencyLedger.InvAlways` | packages/idempotency/ledger.go:103-258 | In every run no token is granted twice and no slot finalized twice, across reclaims, releases and inserts. |
| `IdempotencyLedger.ReplayForever` | packages/idempotency/ledger.go:132-218 | Once finalized, in every continuation the same hash replays exactly that status and response, other hashes conflict, and no finalize, release or insert succeeds. |
| `IdempotencyLedger.FinalizeOnce` | packages/idempotency/ledger.go:199-218 | For one slot at most one Finalize of a whole run succeeds. |
| `IdempotencyLedger.ReclaimAfterLease` | packages/idempotency/ledger.go:160-197 | A taken slot changes owner only after its lease ended on the database clock, whatever the application clock says, one version up. |
| `IdempotencyLedger.StaleForever` | packages/idempotency/ledger.go:199-258 | A token that lost its claim is refused by Finalize and Release in every continuation. |
| `IdempotencyLedger.DoneIsStored` | packages/idempotency/ledger.go:199-218 | The finalization in the history is the one the row stores. |
| `IdempotencyLedger.PostgresLedger.constructor` | packages/idempotency/ledger.go:57-66 | A ledger starts with the given table and the default lease when none is given. |
| `IdempotencyLedger.PostgresLedger.Claim` | packages/idempotency/ledger.go:103-130 | Validates, inserts or loads, and resolves exactly as the specification does. |
| `IdempotencyLedger.PostgresLedger.InsertOrLoad` | packages/idempotency/ledger.go:132-158 | Inserts exactly when the slot is free, and otherwise returns its row. |
| `IdempotencyLedger.PostgresLedger.ResolveClaim` | packages/idempotency/ledger.go:160-197 | Owned, replayed, in progress, conflicting or reclaimed, with the specified table. |
| `IdempotencyLedger.PostgresLedger.ExtendLease` | packages/idempotency/ledger.go:84-89 | The lease update takes effect only on the expired claim of the same hash and id, one version up. |
| `IdempotencyLedger.PostgresLedger.FinalizeClaim` | packages/idempotency/ledger.go:199-218 | Finalizes exactly the token's own open claim. |
| `IdempotencyLedger.PostgresLedger.ReleaseClaim` | packages/idempotency/ledger.go:240-258 | Deletes exactly the token's own open claim. |
| `RedisStore.RedisKeyInjective` | packages/idempotency/store.go:144-146 | Different organizations or keys never share a Redis key. |
| `RedisStore.CasIsAtomic` | packages/idempotency/redis.go:109-189 | Although read and write are separate commands, each Commit and Release changes the store in one command only, with exactly the effect of the atomic operation, or not at all. |
| `RedisStore.CompletedUntilExpiry` | packages/idempotency/redis.go:109-189 | A completed record is unchanged in every continuation until its time to live ends. |
| `RedisStore.CompletedAnswers` | packages/idempotency/redis.go:46-106 | Until then every claim on the key is a hit for the same fingerprint and a conflict for any other, on that record. |
| `RedisStore.CommitReplays` | packages/idempotency/redis.go:109-129 | What a successful Commit stored is what the same fingerprint is answered for the whole time to live. |
| `RedisStore.RoundsBounded` | packages/idempotency/redis.go:61-91 | In every run a claim goes round at most once per disappearance of its key since it started. |
| `RedisStore.GoneMeansVanished` | packages/idempotency/redis.go:61-80 | A key that was there and is gone disappeared in between. |
| `RedisStore.RedisClient.TryClaimPending` | packages/idempotency/redis.go:93-106 | Wins exactly when the key is empty and then holds this owner's pending record. |
| `RedisStore.RedisClient.Claim` | packages/idempotency/redis.go:46-59 | Answers from a record it saw or stores a pending one; ends after at most one round per disappearance to come. |
| `RedisStore.RedisClient.InspectExisting` | packages/idempotency/redis.go:61-80 | Hit, conflict or in progress from the record it read, or on to reclaiming a vanished key. |
| `RedisStore.RedisClient.Reclaim` | packages/idempotency/redis.go:82-91 | Takes the empty key or inspects whoever took it first. |
| `RedisStore.RedisClient.CasPending` | packages/idempotency/redis.go:146-189 | Success means the key was changed, at one instant during the call, exactly as the pending test then calls for; failure wrote nothing. |
| `AuthIndexes.TokenIndex.constructor` | packages/authcache/token_index.go:19-31 | Starts empty. |
| `AuthIndexes.TokenIndex.Put` | packages/authcache/token_index.go:33-45 | Refuses a token with a live tombstone and otherwise maps it to the digest. |
| `AuthIndexes.TokenIndex.IsRevoked` | packages/authcache/token_index.go:47-55 | True exactly while the tombstone lives. |
| `AuthIndexes.TokenIndex.RemoveDigest` | packages/authcache/token_index.go:57-70 | Forgets the token only if it still maps to this digest. |
| `AuthIndexes.TokenIndex.Revoke` | packages/authcache/token_index.go:72-84 | Installs the tombstone and reports the digest that was mapped. |
| `AuthIndexes.TokenIndex.TombLive` | packages/authcache/token_index.go:86-96 | Reports whether the tombstone lives and forgets it when it does not. |
| `AuthIndexes.OrgIndex.constructor` | packages/authcache/org_index.go:21-31 | Starts empty. |
| `AuthIndexes.OrgIndex.Put` | packages/authcache/org_index.go:50-69 | Prunes, refuses a suspended organization and otherwise adds the digest. |
| `AuthIndexes.OrgIndex.IsSuspended` | packages/authcache/org_index.go:71-80 | True exactly while the tombstone lives. |
| `AuthIndexes.OrgIndex.RemoveDigest` | packages/authcache/org_index.go:82-98 | Removes the digest and an organization left empty. |
| `AuthIndexes.OrgIndex.Revoke` | packages/authcache/org_index.go:100-119 | Installs the tombstone and returns every digest of the organization. |
| `AuthIndexes.OrgIndex.PruneExpiredTombs` | packages/authcache/org_index.go:121-128 | Visiting tombstones in any order leaves exactly the live ones. |
| `AuthIndexes.AddAllCovers` | packages/authcache/bloom.go:47-58 | After any adds the previous generation is a full block and the active one a shorter one, together the end of the run of adds. |
| `AuthIndexes.RecentAddsRemembered` | packages/authcache/bloom.go:38-58 | Each of the most recent `expected` adds tests positive and no generation took more than `expected` adds. |
| `AuthIndexes.BloomFilter.constructor` | packages/authcache/bloom.go:21-28 | Starts with two empty generations. |
| `AuthIndexes.BloomFilter.Test` | packages/authcache/bloom.go:38-45 | Positive for every digest in either generation, and only for those unless the bits collide. |
| `AuthIndexes.BloomFilter.AddDigest` | packages/authcache/bloom.go:47-58 | Adds to the active generation and rotates when it is full. |
| `AuthCache.InvAlways` | packages/authcache/validator.go:79-242 | In every run a stale entry expires with its tombstone or its own writer is still there to remove it, and a call that carries a stale result started before the revocation. |
| `AuthCache.RecheckBlocks` | packages/authcache/validator.go:224-228 | The recheck after an insert never misses a revocation that came before the insert. |
| `AuthCache.LeakOnlyAcrossTombstoneEnd` | packages/authcache/validator.go:138-157 | If calls last less than the cache's time to live, a result older than a revocation passes its last check only in a call that started before that tombstone ended and checks at or after its end. |
| `AuthCache.StalePassesExactly` | packages/authcache/validator.go:138-157 | A cached entry of a revoked token or organization is handed out if and only if its expiry is read before its end, both checks of that subject read the clock at or after the end of its tombstone, and the other is not blocked. |
| `AuthCache.LeakIsReachable` | packages/authcache/validator.go:138-157 | Such a call exists for every time to live and every call length of at least one tick. |
| `AuthCache.LeakFreeExactly` | packages/authcache/validator.go:138-157 | No revoked result is ever handed out from the cache if and only if no time passes inside a call. |
| `AuthCache.StepsBounded` | packages/authcache/validator.go:79-230 | Each step of a call brings it nearer its end, whatever happens to the cache; at most twenty-two steps. |
| `AuthCache.CachedIsServed` | packages/authcache/validator.go:138-157 | A cached result neither expired nor revoked is returned without asking upstream. |
| `AuthCache.AcceptedIsCached` | packages/authcache/validator.go:205-242 | What upstream accepts and no tombstone forbids is cached for exactly its time to live. |
| `AuthCache.CachingValidator.constructor` | packages/authcache/validator.go:39-76 | Starts with an empty cache and empty indexes. |
| `AuthCache.CachingValidator.CacheBlocked` | packages/authcache/validator.go:134-136 | True exactly when the token or the organization has a live tombstone. |
| `AuthCache.CachingValidator.RemoveDigests` | packages/authcache/validator.go:159-164 | Removes the digest from both indexes. |
| `AuthCache.CachingValidator.RemoveFromLru` | packages/authcache/validator.go:60-76 | Removes the entry and runs its eviction callback on both indexes. |
| `AuthCache.CachingValidator.EvictRevoked` | packages/authcache/validator.go:159-164 | Removes the digest from both indexes and the entry from the LRU. |
| `AuthCache.CachingValidator.LookupLru` | packages/authcache/validator.go:138-157 | Hits exactly on a present, unexpired, unblocked entry, with the cache the call's steps leave. |
| `AuthCache.CachingValidator.PutLru` | packages/authcache/validator.go:205-230 | Ends as the call's own steps from the time-to-live test to the answer. |
| `AuthCache.CachingValidator.PutOrgAndEntry` | packages/authcache/validator.go:213-230 | The organization index step, with the token's undone when it is refused. |
| `AuthCache.CachingValidator.AddAndRecheck` | packages/authcache/validator.go:220-230 | The insert, the recheck and the eviction it may call for. |
| `AuthCache.CachingValidator.Validate` | packages/authcache/validator.go:79-91 | A hit, upstream's answer or its rejection, with exactly the cache the uninterrupted call leaves. |
| `AuthCache.CachingValidator.DropCachedHash` | packages/authcache/validator.go:126-132 | Drops one digest and leaves tombstones and other entries alone. |
| `AuthCache.CachingValidator.InvalidateByTokenId` | packages/authcache/validator.go:104-110 | The tombstone is up and the indexed digest gone, also when none was indexed. |
| `AuthCache.CachingValidator.InvalidateByOrgId` | packages/authcache/validator.go:115-124 | The tombstone is up and every indexed digest of the organization gone, in any order. |
| `BillingCache.InvAlways` | packages/billing/cache.go:59-189 | In every run a generation is the number of invalidations modulo 2^64, and every entry and call carries the count at its load's start. |
| `BillingCache.HandedOutFresh` | packages/billing/cache.go:87-189 | Every snapshot handed out, cached or fresh, is what a load of that key returned, with no invalidation since that load began short of 2^64. |
| `BillingCache.GivesUpOnlyAfterThreeInvalidations` | packages/billing/cache.go:125-142 | A call gives up without a snapshot only if its key was invalidated at least three times while it ran. |
| `BillingCache.ServedUntilExpiry` | packages/billing/cache.go:107-174 | An installed snapshot is served for exactly its time to live, never after an invalidation, and other keys are not disturbed. |
| `BillingCache.BudgetCache.constructor` | packages/billing/cache.go:36-57 | Starts empty. |
| `BillingCache.BudgetCache.Lookup` | packages/billing/cache.go:107-123 | Serves a current, unexpired entry and removes any other. |
| `BillingCache.BudgetCache.InstallSnapshot` | packages/billing/cache.go:156-174 | Installs exactly when the generation is unchanged; the second test never fires. |
| `BillingCache.BudgetCache.InvalidateKey` | packages/billing/cache.go:177-189 | Advances the generation and drops the entry, and ignores the nil organization. |
| `BillingCache.BudgetCache.LoadAndStore` | packages/billing/cache.go:125-154 | Returns the snapshot of the first of three loads that was not invalidated unless an earlier load failed, and fails as invalidated only if all three were. |
| `ModelPolicyCache.InvAlways` | packages/modelpolicy/cache.go:64-245 | In every run a generation counts the invalidations since it was last dropped, and every entry and call relates its load's start to now. |
| `ModelPolicyCache.StaleExactlyWhenDropped` | packages/modelpolicy/cache.go:64-245 | A snapshot handed out in any run is stale if and only if an eviction callback dropped a nonzero generation of its key since its load began; its epoch is at least one. |
| `ModelPolicyCache.StaleHandOutReachable` | packages/modelpolicy/cache.go:64-73 | For every key and time to live such a run exists. |
| `ModelPolicyCache.QuietLoadServed` | packages/modelpolicy/cache.go:160-215 | An uninterrupted load returns the loader's answer and is served for exactly its time to live; a missing epoch or bad pattern changes nothing. |
| `ModelPolicyCache.PolicyCache.constructor` | packages/modelpolicy/cache.go:38-59 | Starts empty. |
| `ModelPolicyCache.PolicyCache.CachedEpoch` | packages/modelpolicy/cache.go:102-117 | The epoch of a servable entry and nothing otherwise. |
| `ModelPolicyCache.PolicyCache.RemoveEntry` | packages/modelpolicy/cache.go:231-240 | The LRU removal together with its callback. |
| `ModelPolicyCache.PolicyCache.OnLruEvict` | packages/modelpolicy/cache.go:64-73 | Deletes the generation exactly when the evicted entry was live. |
| `ModelPolicyCache.PolicyCache.LookupFresh` | packages/modelpolicy/cache.go:119-139 | Serves a servable entry and otherwise removes what is there. |
| `ModelPolicyCache.PolicyCache.InstallSnapshot` | packages/modelpolicy/cache.go:191-228 | Installs exactly when the generation is unchanged; alone, the test after the insert never undoes it. |
| `ModelPolicyCache.PolicyCache.Invalidate` | packages/modelpolicy/cache.go:231-245 | Bump, removal and callback; nothing for the nil organization. |
| `ModelPolicyCache.PolicyCache.PollOnce` | packages/modelpolicy/poller.go:64-113 | After a pass the organizations still served are exactly those served before whose epoch is the store's, and the nil organization. |
| `ModelPolicyPoller.PollSettlesExactly` | packages/modelpolicy/poller.go:64-92 | After the poller's turn at an organization, among any loads, evictions and ticks, only the store's epoch is served if and only if the poller invalidates or no load is under way that began in the current generation and can still install another epoch. |
| `ModelPolicyPoller.SafeSettles` | packages/modelpolicy/poller.go:70-92 | Without such a load no continuation serves another epoch. |
| `ModelPolicyPoller.RiskLeaves` | packages/modelpolicy/cache.go:191-224 | With one, steps of that load alone leave another epoch cached and served. |
| `ModelPolicyPoller.BothReachable` | packages/modelpolicy/cache.go:160-215 | Runs lead to both. |
| `FactWriter.ConservedAlways` | packages/billing/factwriter.go:141-280 | In every interleaving of writes and failing flushes each accepted fact is buffered, in flight, acknowledged or dropped and reported, as often as accepted; the buffer stays within its limit. |
| `FactWriter.FailedFlushRestored` | packages/billing/factwriter.go:261-280 | A failed flush has all its rows back, in order, at the front of the buffer. |
| `FactWriter.DrainedStays` | packages/billing/factwriter.go:190-206 | A closed and drained writer stays so: everything accepted is acknowledged or was dropped. |
| `FactWriter.SerialFlushesKeepOrder` | packages/billing/factwriter.go:166-280 | With at most one flush in flight, rows are acknowledged, carried and buffered in order of acceptance and a failure drops only the newest. |
| `FactWriter.ConcurrentFlushesDropOldest` | packages/billing/factwriter.go:261-280 | With two failing flushes the oldest row can be dropped and newer ones kept, for every buffer limit. |
| `FactWriter.DropsNewestExactly` | packages/billing/factwriter.go:261-280 | A failing flush always drops the newest rows if and only if flushes never overlap. |
| `FactWriter.UsageFactWriter.constructor` | packages/billing/factwriter.go:64-77 | Starts empty with the default limit when none is given. |
| `FactWriter.UsageFactWriter.WriteFact` | packages/billing/factwriter.go:141-164 | Accepts at the end of the buffer, or reports why not, full ones through the drop hook. |
| `FactWriter.UsageFactWriter.TakeBuffer` | packages/billing/factwriter.go:250-259 | Takes the whole buffer and leaves it empty. |
| `FactWriter.UsageFactWriter.RequeueFront` | packages/billing/factwriter.go:261-280 | Puts the rows in front, cuts at the limit and reports what was cut. |
| `FactWriter.UsageFactWriter.WriteAll` | packages/billing/factwriter.go:141-164 | Writes made during an insert conserve facts and leave the flush alone. |
| `FactWriter.UsageFactWriter.FinishFlush` | packages/billing/factwriter.go:173-180 | Acknowledges the rows or requeues them. |
| `FactWriter.UsageFactWriter.Flush` | packages/billing/factwriter.go:166-180 | Success acknowledges the whole buffer; failure restores it in front and loses at most facts written meanwhile. |
| `FactWriter.UsageFactWriter.Shutdown` | packages/billing/factwriter.go:190-206 | Closes once and flushes what is left. |
| `CostEstimate.CeilExact` | packages/billing/estimate.go:85-97 | The result is the least number of cents that covers the tokens, refused exactly when the product exceeds MaxInt64 - 999. |
| `CostEstimate.EstimateExact` | packages/billing/estimate.go:35-97 | An estimate is given exactly when no operand is negative and both products leave room; it never undercharges and overcharges by less than two cents; the last overflow test never refuses. |
| `CostEstimate.EstimateMonotone` | packages/billing/estimate.go:35-97 | More tokens or higher prices never lower an estimate, and fewer are never refused where more are not. |
| `CostEstimate.SplitNeverCheaper` | packages/billing/estimate.go:35-97 | Splitting a request in two never makes it cheaper. |
| `CostEstimate.MatchPrice` | packages/billing/estimate.go:99-117 | The first matching row, or none when no row matches. |
| `CostEstimate.EstimateCost` | packages/billing/estimate.go:35-59 | The price by the first matching row with the card's version; which inputs are refused for want of a version or a rate. |
| `OutboxWriter.MetadataReadsBack` | packages/evidenceoutbox/store.go:804-903 | The class and fence written into any payload are the ones the relay reads back. |
| `OutboxWriter.EventsGood` | packages/evidenceoutbox/store.go:84-239 | No event the writer builds uses a reserved field or a blank type. |
| `OutboxWriter.EnqueueAllWrites` | packages/evidenceoutbox/store.go:119-136 | A successful transaction appended one row per event, in order, numbered without a gap, with fresh ids. |
| `OutboxWriter.PersistWrites` | packages/evidenceoutbox/store.go:53-136 | A fresh run writes its events as rows 1 to n and returns their ids in that order. |
| `OutboxWriter.ReplayReturnsFirst` | packages/evidenceoutbox/store.go:250-279 | Persisting a run again, after any other runs, writes nothing and returns the first call's ids in order. |
| `OutboxWriter.SortKeeps` | packages/evidenceoutbox/store.go:254-261 | Ordering by sequence number keeps exactly the rows. |
| `OutboxWriter.WrittenRowsDeliverable` | packages/evidenceoutbox/store.go:301-404 | Every written row carries the run's class and fence and validates if and only if the class is metadata, a fence was given and the request id is not blank. |
| `OutboxWriter.PersistsExactly` | packages/evidenceoutbox/store.go:53-136 | A run is written if and only if it is valid and new, its class is supported and its inserts and digests succeed. |
| `OutboxWriter.UndeliverableWritten` | packages/evidenceoutbox/store.go:301-404 | Every such run that is not classified as metadata, has no fence or has a blank request id is written, and each of its rows fails the relay's checks. |
| `OutboxWriter.WriterAcceptsMore` | packages/evidenceoutbox/store.go:53-136 | An unclassified run, and a classified and fenced one under a request id that is a space, are such runs in any database. |
| `OutboxWriter.RunWriter.constructor` | packages/evidenceoutbox/store.go:67-82 | Starts with the transaction and run given. |
| `OutboxWriter.RunWriter.EnqueueEvent` | packages/evidenceoutbox/store.go:534-561 | Appends the event's row with the next number, or fails the transaction. |
| `OutboxWriter.RunWriter.WriteSpans` | packages/evidenceoutbox/store.go:138-156 | One row per span, in order. |
| `OutboxWriter.RunWriter.WriteMiddle` | packages/evidenceoutbox/store.go:158-202 | Metrics, candidates and directive, each at most one row, in this order. |
| `OutboxWriter.RunWriter.WriteTools` | packages/evidenceoutbox/store.go:204-220 | One row per tool call, in order. |
| `OutboxWriter.RunWriter.WriteSessionEvents` | packages/evidenceoutbox/store.go:222-239 | One row per session event, in order. |
| `OutboxWriter.RunWriter.PersistAll` | packages/evidenceoutbox/store.go:84-117 | The run's rows are exactly those of its event list. |
| `OutboxWriter.Store.constructor` | packages/evidenceoutbox/store.go:22-27 | Starts with empty tables. |
| `OutboxWriter.Store.PersistRun` | packages/evidenceoutbox/store.go:30-73 | Validates, replays or writes as specified; a failure changes nothing. |
| `OutboxRelay.RowForever` | packages/evidenceoutbox/relay.go:396-446 | In every run delivered and poisoned rows are never touched again, attempts never fall and no row is lost. |
| `OutboxRelay.LostClaimForever` | packages/evidenceoutbox/relay.go:396-446 | A claim that was settled, recovered or reclaimed can never mark its row again; the mark changes nothing and is refused. |
| `OutboxRelay.InvAlways` | packages/evidenceoutbox/relay.go:112-446 | The invariant behind the delivery results holds in every run. |
| `OutboxRelay.DeliveryIsSound` | packages/evidenceoutbox/relay.go:145-446 | In every run a delivered row was accepted by a sink, a row is marked failed fewer than maxAttempts times, and a sink was shown only classified, validly fenced rows with matching digests. |
| `OutboxRelay.NeverStranded` | packages/evidenceoutbox/relay.go:327-349 | In every reachable state a row that is not terminal can be claimed again after waiting and recovery. |
| `OutboxRelay.ClaimHeldUntilAged` | packages/evidenceoutbox/relay.go:326-349 | Until it is older than every recovery age, a claim keeps its row whatever other relays do, and its own mark takes effect. |
| `OutboxRelay.RetryWaits` | packages/evidenceoutbox/relay.go:417-446 | A failed row is not claimed before its backoff is over. |
| `OutboxRelay.BackoffBounds` | packages/evidenceoutbox/relay.go:449-478 | The delay is between one second and a minute and within half the doubling base and the base. |
| `OutboxRelay.Relay.constructor` | packages/evidenceoutbox/relay.go:80-97 | Starts with the given table and configuration. |
| `OutboxRelay.Relay.DeliverOne` | packages/evidenceoutbox/relay.go:145-175 | Delivers and marks one claim, whatever other relays do in between; counts it exactly when the mark took effect. |
| `OutboxRelay.Relay.MarkOutcome` | packages/evidenceoutbox/relay.go:164-175 | Marks the row delivered, failed or poisoned as the attempt came out, and counts it exactly when the mark took effect. |
| `OutboxRelay.Relay.ClaimBatch` | packages/evidenceoutbox/relay.go:127-143 | Claims exactly the rows the database picked and returns one claim for each, with the attempts after it, in order. |
| `OutboxRelay.Relay.DeliverAll` | packages/evidenceoutbox/relay.go:118-124 | Each claim counted was really marked so, in order up to the first refused mark; without one claimed is delivered plus failed plus poisoned. |
| `OutboxRelay.Relay.ProcessBatch` | packages/evidenceoutbox/relay.go:112-125 | Claims the rows picked and delivers them, whatever other relays do in between: every row counted was claimed here and really marked so by that claim; without an error claimed is delivered plus failed plus poisoned. |
| `JsonNumber.ExpandKeepsValue` | packages/privacyaudit/canonical.go:225-316 | Writing out an exponent keeps sign and value exactly, in at most 4096 characters. |
| `JsonNumber.WrapIsHarmless` | packages/privacyaudit/canonical.go:225-242 | Wrapping 64-bit arithmetic on extreme exponents never changes the outcome. |
| `JsonNumber.PlaceDecimalParts` | packages/privacyaudit/canonical.go:298-316 | The point is placed exactly scale digits from the right of the same number, without a redundant leading zero. |
| `JsonNumber.FormatChars` | packages/privacyaudit/canonical.go:209-223 | Canonical number text has only digits, signs and points. |
| `JsonNumber.AllAsciiDigits` | packages/privacyaudit/canonical.go:287-294 | True exactly for strings of digits. |
| `JsonNumber.PlaceDecimalPoint` | packages/privacyaudit/canonical.go:298-316 | The byte buffer computes the specified placement. |
| `NumericText.FormatKeepsValue` | packages/privacyaudit/canonical.go:206-242 | The canonical text of any number text denotes the same real number, or neither denotes one. |
| `NumericText.FormatsExactly` | packages/privacyaudit/canonical.go:209-263 | A JSON number has a canonical text if and only if it has no exponent or is sure to fit 4096 characters when written out. |
| `NumericText.NumericReads` | packages/privacyaudit/canonical.go:206-208 | The text PostgreSQL prints for a number reads back as that number. |
| `NumericText.ExpandIsNumericExactly` | packages/privacyaudit/canonical.go:225-242 | A number with an exponent is written out as PostgreSQL prints it if and only if its digits do not keep a redundant zero in front and it is not a negative zero. |
| `NumericText.FormatIsPostgresExactly` | packages/privacyaudit/canonical.go:206-242 | The canonical text of a JSON number, with or without an exponent, is PostgreSQL's text of it if and only if the exponent leaves no redundant zero in front and it is not a negative zero. |
| `NumericText.LeadingZeroKept` | packages/privacyaudit/canonical.go:209-242 | 0.5e1 is written 05 where PostgreSQL prints 5, and so for any digit. |
| `NumericText.NegativeZeroKept` | packages/privacyaudit/canonical.go:209-242 | -0e0 and -0 are written -0 where PostgreSQL prints 0. |
| `TextOrder.SortOrderIrrelevant` | packages/privacyaudit/canonical.go:441-449 | Sorted texts are equal if and only if the inputs are the same multiset. |
| `TextOrder.AnyListing` | packages/privacyaudit/canonical.go:133-145 | However a map yields its keys, sorting gives the one canonical order, length in bytes before bytewise. |
| `JsonbText.RoundTrip` | packages/privacyaudit/canonical.go:148-204 | A parser reads back any printed value followed by a delimiter or nothing, with numbers in canonical text, and leaves what follows. |
| `JsonbText.StringReadBack` | packages/privacyaudit/canonical.go:329-361 | Escaped text is read back up to its closing quote. |
| `JsonbText.TextDecidesValue` | packages/privacyaudit/canonical.go:148-204 | Two values have the same text if and only if they are equal up to the spelling of numbers. |
| `JsonbText.SameTextAlike` | packages/privacyaudit/canonical.go:148-204 | Values with the same text are equal number for number: their numbers denote the same. |
| `JsonbText.WriteString` | packages/privacyaudit/canonical.go:329-351 | Appends the quoted, escaped text. |
| `JsonbText.SortedMapKeys` | packages/privacyaudit/canonical.go:133-145 | Any iteration order gives the canonical key order. |
| `JsonbText.WriteJsonb` | packages/privacyaudit/canonical.go:158-204 | Appends exactly the canonical text and fails exactly on values with a number that has none. |
| `JsonbText.WriteArray` | packages/privacyaudit/canonical.go:382-394 | The same for arrays. |
| `JsonbText.WriteObject` | packages/privacyaudit/canonical.go:363-380 | The same for objects, whatever order the map yields its keys in. |
| `JsonbText.WriteFields` | packages/privacyaudit/canonical.go:366-377 | Appends the fields in the given key order. |
| `JsonbText.WriteField` | packages/privacyaudit/canonical.go:370-376 | Appends one key and its value. |
| `PrivacyAudit.StampDetermined` | packages/privacyaudit/canonical.go:397-399 | The timestamp text determines the instant to the microsecond, in any year. |
| `PrivacyAudit.TextDecidesEntry` | packages/privacyaudit/canonical.go:402-449 | Two entries are hashed from the same text if and only if they agree in everything hashed, field names as a multiset, payloads up to number spelling. |
| `PrivacyAudit.RowHash` | packages/privacyaudit/canonical.go:452-459 | The hash of the entry's canonical text, or nothing when it has none. |
| `PrivacyAudit.CheckEntry` | packages/privacyaudit/canonical.go:496-536 | True exactly when number, previous hash and own hash are right. |
| `PrivacyAudit.VerifyChain` | packages/privacyaudit/canonical.go:479-494 | Accepts exactly the linked ledgers and otherwise reports the first entry that is not linked. |
| `PrivacyAudit.PrefixLinked` | packages/privacyaudit/canonical.go:479-494 | Any beginning of an accepted ledger is accepted: truncation shows only against a kept hash. |
| `PrivacyAudit.LastHashFixesLedger` | packages/privacyaudit/canonical.go:402-536 | Two accepted ledgers that end in the same hash are the same, entry by entry, or exhibit a hash collision. |
| `Binary64.NearestIsClosest` | packages/canonicaljson/jcs.go:13-42 | An integer is read as a double none is closer than. |
| `Binary64.NearestGrows` | packages/canonicaljson/jcs.go:13-42 | Reading integers as doubles keeps their order. |
| `Binary64.PrintedPreferred` | packages/canonicaljson/jcs.go:13-42 | The printed integer reads as the same double; of all integers that do it ends in the most zeros, is then the closest to the double, then the smallest. |
| `Binary64.KeptExactly` | packages/canonicaljson/jcs.go:13-42 | An integer is printed as itself if and only if no other that reads as the same double is preferred to it. |
| `Binary64.KeptUpTo` | packages/canonicaljson/jcs.go:13-42 | All integers up to b are printed as themselves if and only if b is at most 2^53. |
| `Binary64.FewDigitsKept` | packages/canonicaljson/jcs.go:13-42 | An integer of at most fifteen digits before its final zeros is printed as itself, however large. |
| `Binary64.NumberGrows` | packages/canonicaljson/jcs.go:13-42 | What is printed is printed as itself, and printing keeps the order. |
| `PolicySnapshot.TtlOutlivesTruncation` | packages/policysnapshot/issuer.go:111-119 | A lifetime of at least a second gives expiry after issue in whole seconds. |
| `PolicySnapshot.NewIssuer` | packages/policysnapshot/issuer.go:46-119 | An issuer is made exactly from a key of 2048 bits or more, a key id, an epoch of at least one, the supported authority or none and a lifetime of a second or more or none; its key id is the trimmed one. |
| `PolicySnapshot.IssuesExactly` | packages/policysnapshot/issuer.go:144-183 | Issuing fails only on a blank organization, subject or id, negative permissions or a clock before the first second. |
| `PolicySnapshot.FreshExactly` | packages/policysnapshot/verifier.go:148-162 | A snapshot is fresh exactly from issue less 5s to the earlier of class age and expiry plus 5s. |
| `PolicySnapshot.MutationImpliesRead` | packages/policysnapshot/snapshot.go:65-71 | What is accepted for a mutation is accepted for a read with the same claims. |
| `PolicySnapshot.IssuedAcceptedExactly` | packages/policysnapshot/verifier.go:60-162 | An issued envelope is accepted exactly when size, decoding, organization, agent, epoch and clock allow, and then with the issued claims as printed. |
| `PolicySnapshot.ExactAcceptedExactly` | packages/policysnapshot/verifier.go:60-162 | With numbers up to 2^53 it is accepted exactly when the payload fits, the trimmed organization and agent are those asked for, the epoch is high enough and the clock is in the window of class age and lifetime give or take 5s, and then with the issued claims. |
| `PolicySnapshot.ClaimsKeptExactly` | packages/policysnapshot/verifier.go:95-111 | The accepted claims are the issued ones if and only if each of their four integers is, of all integers that read as its double, the one canonical JSON prefers. |
| `PolicySnapshot.PermissionsKeptUpTo` | packages/policysnapshot/verifier.go:95-111 | Where only the permissions vary and the payloads fit, all permissions up to b come back from issue and verification unchanged if and only if b is at most 2^53. |
| `PolicySnapshot.CodecExists` | packages/policysnapshot/snapshot.go:170-180 | The properties asked of the canonical text are consistent: a text and decoder with all of them exist for any hash. |
| `PolicySnapshot.LargePermissionsChange` | packages/policysnapshot/verifier.go:95-111 | Permissions of 2^53 + 1 are accepted as 2^53. |
| `PolicySnapshot.AcceptedWasIssued` | packages/policysnapshot/verifier.go:60-146 | In every run of issuers and verifiers in which no forgery is presented, whatever was accepted was issued in the run by a valid issuer with the key trusted for that key id, for this organization and agent, with these claims as printed, and is fresh. |
| `PolicySnapshot.ExplainedInTime` | packages/policysnapshot/verifier.go:148-162 | Such an acceptance of numbers up to 2^53 has the issued claims and comes less than six seconds before the issue, and at most five seconds after class age and lifetime. |
| `PolicySnapshot.ExplainedKeyId` | packages/policysnapshot/keys.go:87-91 | Where no two key ids share a key and the issuer's is among them, the accepted envelope bears its issuer's key id. |
| `PolicySnapshot.HonestNoForgery` | packages/policysnapshot/verifier.go:113-119 | A run that presents only issued envelopes to verifiers that trust their issuers is without forgery, under any signature scheme. |
| `PolicySnapshot.IssueThenCheck` | packages/policysnapshot/verifier.go:60-77 | Issuing and then checking is such a run, and logs the acceptance exactly when the verifier accepts. |
| `PolicySnapshot.PremisesMet` | packages/policysnapshot/verifier.go:60-77 | The premises on text, signatures and forgery hold together in a run in which an envelope is issued and checked. |

## Left out

- SQL drivers, row-level security, connection errors, gRPC, ClickHouse and S3 clients: their effects appear as atomic steps only.
- The order and row locks of the outbox claim query: a claim takes any claimable rows within the limit, which covers every order; the 32-bit width of the attempts column is not modelled.
- Bits of the Bloom filter: each generation is the list of digests added to it, and a colliding digest is an input.
- Capacity bookkeeping of the LRU caches: an entry may be evicted at any step, which covers every capacity.
- Lower-casing and glob matching of rate card patterns, and validation of policy patterns: parameters.
- Interleaved calls of the auth, model policy and budget caches are program counters over values; the classes beside them run one call at a time.
- JSON decoding of raw payload bytes before canonicalization, and the case-insensitive field matching of Go's decoder: payloads are JSON values.
- Invalid UTF-8 in Go strings: text is a sequence of Unicode code points.
- Redis connection errors and record corruption beyond an unsupported record; keys expire at their time to live exactly.
- The canonical JSON of policy claims but for its integers, SHA-256, RSA and PEM parsing: parameters with the stated
  properties; timestamps beyond Go's time range are not modelled.
- Validation of usage facts, of trace and span ids and of model names: each input carries whether it passes.
- A ClickHouse insert that stores rows and still reports an error: its rows count as not acknowledged and are requeued, as in the source.
- Budget check, published card lookup and other thin readers of the caches, metrics, logging and configuration defaults: easy members.
- ModelPolicyCache.PolicyCache.PollOnce: runs alone, because the class runs one call at a time; PollSettlesExactly has the poller's turn among other calls.
- A sum of live holds beyond int64: the source's query fails on it, the model wraps it.
- AuthCache.LeakFreeExactly: calls that last as long as the cache's time to live are not covered, because the source promises nothing for them.
