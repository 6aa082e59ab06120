# Portlyn, modelled in Dafny

Portlyn is a self-hosted reverse proxy and tunnel hub. This project models the parts of it
whose correctness depends on interleavings, clocks, counters and encodings, and proves what
they promise. Three kinds of module work together:

* Modules named after a component (`CertificateCache`, `LockTable`, `SessionStore`, ...) hold
  the component's state as a value, one function per critical section or statement, and a
  class whose methods update that state in place and are proved equal to those functions.
* Modules named `...Runs` put those functions into a machine that takes one atomic step at a
  time. A run is any sequence of states and steps (`Runs.IsRun`); a step that is not enabled
  leaves the state as it is, so every sequence of steps is a run. The theorems speak about
  every state of every run.
* Modules named `...Steps`, and `CertificateFlights`, say in terms of the tables alone what the
  steps of those machines do: when a row, grant, session, code or cache entry comes, changes
  and goes, each with both directions, and that what should succeed does.

| part | modules |
|---|---|
| certificate cache over the certificate table | `CertificateCache`, `CertificateRuns`, `CertificateFlights`, `CertificateMigration` |
| distributed ACME locks with leases | `LockTable`, `LeaseRuns`, `LeaseSteps` |
| sessions, refresh rotation, revocation | `SessionStore`, `SessionRuns`, `SessionSteps` |
| one-time and recovery codes | `Totp`, `TotpRuns`, `TotpSteps` |
| asynchronous audit sink | `AuditQueue`, `AuditRuns` |
| metrics registry and its label keys | `Labels`, `Registry` |
| denial-log throttle | `Throttle`, `ThrottleRuns` |
| authentication result cache | `AuthCache`, `AuthCacheRuns` |
| access rules | `Paths`, `AccessRules` |
| access log: ring buffer and rotating file | `Recorder`, `RotatingFile` |
| node agent: provisioning and listeners | `Provision`, `ProvisionRuns`, `Forwarder` |
| re-encryption of provider configurations | `Reencrypt` |

Time is an `int`, counters are unbounded, metric values are `real`. Random tokens and secrets
are drawn fresh, hashes are collision-free, and each SQL statement or transaction is one
atomic step. Clock readings, store errors, hub replies, key material and encryption
randomness are parameters of the steps or methods.

## Where the code falls short of the plain claim

Each of these is stated exactly, over every run, with the condition under which the claim
holds, and the failing case is shown to be reached.

* A key migration that stops early flushes nothing. Once no writer is between its commit and
  its flush, a miss is still right and a hit still has the stored chain; it is what loading
  would give exactly when the stored private key belongs to that chain
  (`CertificateRuns.HitAgreesIff`, `CertificateMigration.MigratedRowAgreesIff`). Runs in which
  it does not are `CertificateMigration.UnloadableIsServed` and `UnloadableComesInFlight`.
* A disable is not guarded on the counter: its one-time code is new exactly when it exceeds
  the counter then stored (`TotpRuns.DisableIsFreshIff`); a run in which a login has already
  accepted it is `TotpRuns.ReplayedDisableIsReached`.
* No login or disable is guarded on the code list: it takes exactly the code it spent off the
  list if and only if the list is the one its check read (`TotpRuns.CodeTakenOffIff`). Runs
  with races spend a code twice (`SpentTwiceIsReached`) or list a spent one again
  (`RevivedIsReached`); without races codes are conserved (`CodesAreConserved`).
* Events that enter the audit channel after the drain's last look are never handed over: once
  the consumer has stopped, everything kept was handed over exactly if the channel is empty
  (`AuditRuns.AllHandedOverIff`), and it need not be (`AuditRuns.LateEventIsStranded`).
* The text rendering of a histogram adds up buckets that are already cumulative
  (`Registry.RenderedIsExactIff`, with `Registry.RenderedCountsTwice`).
* A cached authentication result reflects every change of its user that was invalidated
  exactly if no change and invalidation came between the read of the user and the store of
  the result (`AuthCacheRuns.HitIsCurrentIff`, `AuthCacheRuns.OvertakenIff`); a run in which
  they did is `AuthCacheRuns.OutdatedIsServed`.
* With saves that fail and crashes at any point, a node key was on file when it was sent
  exactly if no failed save of the keys was pending (`ProvisionRuns.SentIsFiledIff`), and a
  node enrolls again exactly if an enrollment was lost before it was saved
  (`ProvisionRuns.EnrollsAgainIff`).

The re-encryption handler alone would lose rows under an empty active secret, or one with
surrounding blanks (`Reencrypt.ReadableIff`, `Reencrypt.FailuresStayIff`). No server starts
with such a secret (`Reencrypt.LoadedIsProper`), so its results hold without a condition on
the secret (`Reencrypt.ServerRunConverges`).

## Model

| member | source | states |
|---|---|---|
| `CertificateCache.CertificateCache.Get` | internal/acme/certificate_cache.go:43-60 | a hit exactly for a cached name, with the cached certificate, fresh exactly for 60 seconds after it was loaded; a known miss exactly for a name that is not cached and was missing less than 30 seconds ago |
| `CertificateCache.CertificateCache.FinishRefresh` | internal/acme/certificate_cache.go:84-108 | nothing changes after an invalidation and nothing ever for another name; a loaded certificate is a hit from now on, a missing one a miss and no hit; after a failed load the certificate cached so far stays, dated now, and misses stay as they were; hits and misses stay disjoint and at most 4096 misses are kept |
| `CertificateCache.CertificateCache.Invalidate` | internal/acme/certificate_cache.go:110-115 | the name is in neither map, every other hit is as it was and the generation is new |
| `CertificateCache.CertificateCache.InvalidateAll` | internal/acme/certificate_cache.go:119-125 | both maps are empty and the generation is new |
| `CertificateCache.RememberKeepsWellFormed` | internal/acme/certificate_cache.go:86-107 | for every outcome of a load, hits and misses stay disjoint and misses bounded |
| `CertificateCache.RememberSettles` | internal/acme/certificate_cache.go:84-108 | the same as for the end of a refresh, of the function that the machine of all runs uses |
| `CertificateRuns.CacheAgreesWithTable` | internal/acme/certificate_cache.go:43-125 | in every interleaving of gets, refreshes, writes and migrations, once the last write to a name, and the last migration that changed what it means, have been followed by a flush of that name, a hit is exactly the stored certificate and a miss means there is none |
| `CertificateRuns.HitAgreesIff` | internal/acme/certificate_store.go:50-222 | in every run, with no write to the name between its commit and its invalidation and whatever migrations did, a miss means that nothing is stored and a hit has the stored chain; the hit is what the table yields if and only if the stored private key belongs to that chain |
| `CertificateRuns.NoStaleRead` | internal/acme/certificate_cache.go:62-117 | a get that begins after a write to its name returned fails or is answered from that version of the row or a later one, even when it joins a refresh that is already under way |
| `CertificateRuns.ApplyKeeps` | internal/acme/certificate_store.go:50-169 | every atomic step of a writer, a getter, a refresh or a migration keeps the invariant that ties cache entries, loads and waiting callers to versions of the rows |
| `CertificateRuns.RunKeeps` | internal/acme/certificate_store.go:50-222 | the invariant holds in every state of every run from any table |
| `CertificateFlights.HitLeavesIff` | internal/acme/certificate_cache.go:84-125 | in every run a cached certificate leaves the cache at a step if and only if that step invalidates its name, ends a migration that updated a row, or ends a refresh of it, not overtaken by an invalidation, that found it missing |
| `CertificateFlights.HitEntersIff` | internal/acme/certificate_cache.go:84-108 | in every run a name gets cached at a step if and only if that step ends a refresh, not overtaken by an invalidation, that found it |
| `CertificateFlights.CachedAfter` | internal/acme/certificate_cache.go:84-125 | what is cached after one step, both directions, and that a certificate is replaced only by one that was loaded |
| `CertificateFlights.FlightCountsIff` | internal/acme/certificate_cache.go:84-125 | in every run what a refresh loaded is taken over if and only if nothing was invalidated between its read of the generation and its end |
| `CertificateFlights.GenerationStands` | internal/acme/certificate_cache.go:110-125 | in every run the generation never goes back, and is the same at two points if and only if nothing was invalidated between them |
| `CertificateFlights.JoinedIsUnderWay` | internal/acme/certificate_cache.go:50-117 | in every run the refresh that a get would join is one of its own name that has not finished |
| `CertificateFlights.LookDecides` | internal/acme/certificate_cache.go:43-60 | a get answers a cached certificate, at once refreshing one of 60 seconds or more, answers a miss of less than 30 seconds, and otherwise waits for a refresh |
| `CertificateFlights.RevalidateAnswers` | internal/acme/certificate_cache.go:50-57 | an old hit is answered with a refresh of its name under way, started now if there was none |
| `CertificateFlights.JoinWaits` | internal/acme/certificate_cache.go:62-64 | a get without an entry waits for the refresh of its name that is under way, or for one it starts |
| `CertificateFlights.ReceiveAnswers` | internal/acme/certificate_cache.go:62-74 | a waiting get answers what its refresh loaded once that has finished, or an error when its caller gives up |
| `CertificateFlights.FlightLoads` | internal/acme/certificate_cache.go:76-84 | a refresh loads what the stored row yields at that moment, unless the load itself fails |
| `CertificateFlights.FlightEnds` | internal/acme/certificate_cache.go:76-108 | a refresh ends with what it loaded and can no longer be joined |
| `CertificateFlights.RowAfter` | internal/acme/certificate_store.go:50-222 | the stored row changes at a step only by a write that commits or by the update of a migration, and to exactly that row |
| `CertificateFlights.MigrationReads` | internal/acme/certificate_store.go:196-222 | a migration takes up exactly the rows stored with a plain key, as they are when it reads them |
| `CertificateFlights.SealedKeepsRest` | internal/acme/certificate_store.go:205-217 | its update seals the key that was read, only under the row id that was read, and changes nothing else of the row |
| `CertificateFlights.MigrationEnds` | internal/acme/certificate_store.go:196-222 | a migration flushes only after its last row and ends early only by an error, which leaves the cache alone |
| `CertificateFlights.RowLoadsIff` | internal/acme/certificate_store.go:50-169 | a row yields a certificate if and only if it has a private key, plain or sealed, that belongs to its chain |
| `CertificateFlights.WriterReturns` | internal/acme/certificate_cache.go:110-117 | before a writer returns, the refresh under way for its name can no longer be joined, and every other one still can |
| `CertificateMigration.MigratedRowAgreesIff` | internal/acme/certificate_store.go:196-222 | in every run, when a migration updates a row and then returns with an error, the cached certificate agrees with the table if and only if the key the migration read belongs to the certificate stored at the update |
| `CertificateMigration.UnloadableIsServed` | internal/acme/certificate_store.go:205-217 | for every two keys a run from one stored row ends with every writer and migration returned and a hit that the table can no longer yield |
| `CertificateMigration.UnloadableComesInFlight` | internal/acme/certificate_store.go:205-217 | the same when nothing was cached as they all returned, but a refresh had loaded before the update |
| `LockTable.LockTable.TryAcquire` | internal/acme/certmagic_storage.go:258-292 | the name is taken if and only if it was free or expired, and then the new owner has it for the lease time, else its row is as it was; of the other rows exactly the expired ones go |
| `LockTable.LockTable.Extend` | internal/acme/certmagic_storage.go:252-255 | the expiry becomes the given one only for the owner of the row, nobody becomes or stops being an owner, and every other row stays |
| `LockTable.LockTable.Release` | internal/acme/certmagic_storage.go:239 | the owner has no row afterwards and every row of anyone else stays |
| `LockTable.AcquiredPurges` | internal/acme/certmagic_storage.go:258-292 | an acquisition deletes exactly the other rows that have expired and leaves the rest as they were |
| `LeaseRuns.MutualExclusion` | internal/acme/certmagic_storage.go:205-320 | with any number of instances, each with its own lease time, and every clock reading before its commit: if loops start and tick, and statements commit, with bounded lateness and explicit renewals outlast the next loop renewal, two tokens acquired and not unlocked for one name are the same token, and its row is there and unexpired |
| `LeaseRuns.RenewalLasts` | internal/acme/certmagic_storage.go:242-256 | an explicit renewal that commits late, and may shorten what the loop has just extended, still leaves the row alive past the loop's next renewal |
| `LeaseRuns.LoopExtends` | internal/acme/certmagic_storage.go:305-319 | a renewal of the loop, from a clock reading before its commit, leaves the row alive past the next one |
| `LeaseRuns.ExcludedWhileAlive` | internal/acme/certmagic_storage.go:258-288 | as long as a row is neither released nor expired at an attempt, its owner keeps it and no attempt on the name succeeds, whatever else happens |
| `LeaseRuns.ForeignRowsStay` | internal/acme/certmagic_storage.go:223-256 | a release or renewal by one instance leaves every row that another acquisition owns as it was |
| `LeaseRuns.LostForGood` | internal/acme/certmagic_storage.go:223-320 | an owner that lost its row never has it again in the rest of the run |
| `LeaseRuns.OneLoopPerName` | internal/acme/certmagic_storage.go:294-320 | an instance has at most one uncancelled renewal loop per name, and it belongs to the owner recorded for the name |
| `LeaseRuns.RunKeepsFence` | internal/acme/certmagic_storage.go:205-320 | rows, recorded owners, cancel functions, loops and statements in flight always belong to acquisitions of their own instance and name |
| `LeaseSteps.ReleaseFrees` | internal/acme/certmagic_storage.go:223-240 | in every run, once a release of a token has committed no row is owned by it again, and no row of another token was touched |
| `LeaseSteps.GrantLasts` | internal/acme/certmagic_storage.go:258-320 | in every run, when an acquisition with a fresh token commits and its name has no row unexpired at the reading, the token is granted and owns the row, which lasts at least until that reading plus the lease time of its instance; it still does in every later state before that time, if it was neither released nor explicitly renewed |
| `LeaseSteps.AcquireDecides` | internal/acme/certmagic_storage.go:258-292 | an acquisition is granted, for its lease time from its reading, if and only if its name has no row unexpired at the reading; otherwise grants and the row stay as they were |
| `LeaseSteps.AcquirePurges` | internal/acme/certmagic_storage.go:258-292 | it deletes exactly the other rows that had expired at its reading |
| `LeaseSteps.GrantedIff` | internal/acme/certmagic_storage.go:258-292 | in every run a token is granted at a step if and only if that step commits its acquisition and its name has no row unexpired at the reading |
| `LeaseSteps.RowLeavesIff` | internal/acme/certmagic_storage.go:223-292 | in every run a token loses its row at a step if and only if that step commits a release of it or an acquisition, of any name, whose reading is at or past its expiry |
| `LeaseSteps.RenewMoves` | internal/acme/certmagic_storage.go:242-320 | a renewal, by a loop or an explicit one, sets the expiry of the row its token has, if it has one, to its reading plus its lease time, and changes no other row |
| `LeaseSteps.StartRecords` | internal/acme/certmagic_storage.go:294-320 | the acquiring instance owns the name, renews it first after a third of its lease time, and its previous loop for the name is cancelled, alone |
| `LeaseSteps.LoopTicks` | internal/acme/certmagic_storage.go:305-319 | a loop that is due and idle sends the clock reading and is due again a third of the lease time later |
| `LeaseSteps.UnlockSends` | internal/acme/certmagic_storage.go:223-240 | an unlock forgets the owner, cancels its loop and sends the release of exactly that token |
| `LeaseSteps.RenewSends` | internal/acme/certmagic_storage.go:242-256 | an explicit renewal is for the owner at the lookup, and a lease time that is not positive means that of the instance |
| `LeaseSteps.CommitEnds` | internal/acme/certmagic_storage.go:223-292 | each statement commits once |
| `SessionStore.SessionStore.Rotate` | internal/store/session_store.go:67-85 | tokens and expiry are replaced if and only if the session is unrevoked and still has the refresh token presented, which then cannot rotate again; its user and every other session stay as they were |
| `SessionStore.SessionStore.Revoke` | internal/store/session_store.go:114-126 | succeeds once, on an unrevoked session, and marks only that row |
| `SessionStore.SessionStore.RevokeByUserExcept` | internal/store/session_store.go:128-144 | a session is revoked afterwards if and only if it was, or it is one of this user and not the one kept, where 0 keeps none; no session comes or goes and no other field of any changes |
| `SessionRuns.RevokedIsFinal` | internal/auth/sessions.go:33-91 | a request that begins with any credential of a revoked session is never accepted later in the run, whatever the caches answer |
| `SessionRuns.DeadIsFinal` | internal/auth/route_access.go:495-543 | the same for every credential that is revoked or that a refresh has replaced |
| `SessionRuns.RefreshStopsInFlight` | internal/auth/sessions.go:147-197 | a refresh still in flight when its session is revoked or its token replaced is never accepted |
| `SessionRuns.RefreshSucceedsOnce` | internal/auth/sessions.go:147-197 | of all requests presenting one refresh token at most one is accepted |
| `SessionRuns.RefreshReplacesAccess` | internal/auth/sessions.go:147-197 | when a refresh is accepted every earlier access token of its session is dead |
| `SessionRuns.RunKeeps` | internal/auth/sessions.go:147-197 | every token ever issued stays with its session, and each accepted refresh leaves its token dead |
| `SessionSteps.RevokeOthersKills` | internal/store/session_store.go:128-144 | in every run, once all sessions of a user but one were revoked, every credential of those sessions is dead for the rest of the run, and the sessions of other users and the one kept are as before |
| `SessionSteps.RevokedIff` | internal/store/session_store.go:114-144 | in every run a session gets revoked at a step if and only if that step revokes it, by its own user, or revokes all of its user but another |
| `SessionSteps.RevocationKills` | internal/store/session_store.go:114-144 | in every run a revocation leaves every credential of its session dead for good |
| `SessionSteps.SessionAfter` | internal/store/session_store.go:67-144 | what one step makes of a session: revoked, given the tokens of an accepted refresh, or as it was |
| `SessionSteps.AcceptedIff` | internal/auth/sessions.go:33-197 | in every run a request gets accepted at a step if and only if that step reads a valid session for a cached token, ends the uncached check of one that is active, or rotates an active session that still has the token presented |
| `SessionSteps.ReadRejectsIff` | internal/auth/sessions.go:33-91 | in every run reading the session rejects a request if and only if its credential is the current one of no active, unexpired session of its user |
| `SessionSteps.ReadDecides` | internal/auth/sessions.go:33-91 | a valid credential passes to the one session it is valid for |
| `SessionSteps.TouchDecides` | internal/auth/sessions.go:33-91 | the last check of an uncached access token rejects if and only if the store answers that the session is gone or revoked |
| `SessionSteps.RotateDecides` | internal/auth/sessions.go:147-197 | a refresh is accepted if and only if its session is active and still has the token presented, and then the new tokens belong to that session |
| `SessionSteps.ValidAccessIsAccepted` | internal/auth/sessions.go:33-91 | from every state with the invariant of all runs, a valid access token is accepted, whatever the cache answers and whether or not the store fails to record the visit |
| `SessionSteps.ValidRefreshSucceeds` | internal/auth/sessions.go:147-197 | and a valid refresh token is, after which the new tokens are valid until the new expiry |
| `SessionSteps.LoginAdds` | internal/auth/sessions.go:119-145 | a login adds the session and binds its two tokens to it |
| `SessionSteps.FailRejects` | internal/auth/sessions.go:33-197 | an error rejects a request under way, and one that was accepted stays so |
| `Totp.ValidateCode` | internal/auth/mfa.go:417-425 | the counter returned generates the code, and none is returned only if neither the current nor the previous time step does |
| `Totp.Consume` | internal/auth/mfa.go:320-329 | a recovery code matches if and only if its hash is listed, and exactly one occurrence of it is removed, in order |
| `Totp.VerifyDecides` | internal/auth/mfa.go:306-330 | a code is accepted as a one-time code if and only if the user's secret generates it now or 30 seconds ago at a counter above the last one, and then at that counter, the newer if both do; as a recovery code if and only if it is no one-time code and its hash is listed, and then one listing goes; and rejected exactly otherwise |
| `Totp.CounterCounts` | internal/auth/mfa.go:417-433 | from the epoch on the counter is the number of whole 30-second steps, and 30 seconds earlier it is one less |
| `Totp.CounterBeforeEpoch` | internal/auth/mfa.go:417-433 | before the epoch it is counted toward zero and wraps in 64 bits |
| `TotpRuns.NoReplay` | internal/auth/mfa.go:243-330 | under every interleaving of reads, checks and guarded writes with setup, reset and disable, the counters accepted by enabling, login and regeneration for one secret strictly increase, so no time step is accepted twice |
| `TotpSteps.NoCodeTwice` | internal/auth/mfa.go:243-330 | in every run, of two one-time codes that enabling, login or regeneration accepted for one secret, each is what the secret generates at its counter, and the later one has the higher counter |
| `TotpSteps.SuccessHasCode` | internal/auth/mfa.go:99-330 | in every run every success that was logged presented a code that its secret generates at its counter, of the time of the check or 30 seconds before, or a recovery code whose hash is the one spent and which is no one-time code |
| `TotpSteps.CheckDecides` | internal/auth/mfa.go:99-330 | enabling passes its check if and only if the pending secret generates the code now or 30 seconds ago, the other operations if and only if the code is valid, and a disable only for an enabled user |
| `TotpSteps.WriteDecides` | internal/auth/mfa.go:99-304 | a write goes through if and only if the row still has the secret that was read, and the counter unless it disables, and logs exactly the code checked; else nothing changes |
| `TotpSteps.WriteSets` | internal/auth/mfa.go:99-304 | the row afterwards: the counter of the code, the pending secret and codes once enabled, none once disabled, the new list after regenerating, and after a login the list that was read without the code spent |
| `TotpSteps.LoginInTurnIff` | internal/auth/mfa.go:243-330 | with nothing in between, a login succeeds if and only if its code is valid and not used up, and otherwise leaves the row as it was |
| `TotpSteps.SetupAndReset` | internal/auth/mfa.go:70-209 | setup replaces the pending secret and codes alone, a reset takes all of them but not the counter |
| `TotpRuns.RunKeeps` | internal/auth/mfa.go:70-209 | while the factor is enabled the row's last counter is the newest one accepted for its secret, and a pending secret was never activated before |
| `TotpRuns.DisableIsFreshIff` | internal/auth/mfa.go:134-163 | when a disable goes through, its code is newer than all accepted before if and only if it exceeds the counter then in the row, which its guard does not check |
| `TotpRuns.DisableReplaysLogin` | internal/auth/mfa.go:149-160 | a login and a disable that both read first accept the same one-time code, for every enabled user and valid code |
| `TotpRuns.CodeTakenOffIff` | internal/auth/mfa.go:291-301 | in every run, a login or disable that passes its guard takes exactly the recovery code it spent off the current list, and with a one-time code none, if and only if the list is the one its check read |
| `TotpRuns.CodesAreConserved` | internal/auth/mfa.go:243-330 | in every run, while no such write was raced, the codes listed and the codes spent are together those issued, so each is accepted at most as often as issued |
| `TotpRuns.RecoveryCodeSpentTwice` | internal/auth/mfa.go:291-301 | two logins that both read first are both accepted on one recovery code |
| `TotpRuns.RecoveryCodeRevived` | internal/auth/mfa.go:291-301 | two logins that both read first on different codes are both accepted, and the recovery code spent first is listed again |
| `TotpRuns.SpentTwiceIsReached` | internal/auth/mfa.go:243-304 | for every secret, list and listed recovery code some run accepts the code twice |
| `TotpRuns.RevivedIsReached` | internal/auth/mfa.go:243-304 | for every two listed recovery codes some run accepts both and still lists the first |
| `TotpRuns.ReplayedDisableIsReached` | internal/auth/mfa.go:134-163 | for every newer one-time code some run accepts it for a login and again for a disable |
| `TotpRuns.EnabledIsReached` | internal/auth/mfa.go:70-132 | every usable secret and code list are those of an enabled user, with nothing in flight, in some run |
| `TotpRuns.RecoveryCodeSpentInTurn` | internal/auth/mfa.go:291-301 | after a login that is not raced the code is still listed if and only if it was listed twice |
| `AuditQueue.AsyncSink.constructor` | internal/audit/logger.go:83-110 | an empty queue with the given sizes, or 1024 and 128 for sizes that are not positive |
| `AuditQueue.AsyncSink.TrySend` | internal/audit/logger.go:117-158 | a send succeeds if and only if the channel has room and appends at the end of everything not yet handed over |
| `AuditQueue.AsyncSink.TryEvict` | internal/audit/logger.go:137-140 | takes the oldest queued event, if any, and leaves what was taken before |
| `AuditQueue.AsyncSink.Flush` | internal/audit/logger.go:167-176 | hands a non-empty buffer over as one batch; nothing is lost or reordered and the buffer is empty |
| `AuditQueue.AsyncSink.Receive` | internal/audit/logger.go:192-196 | moves the oldest event into the buffer and flushes when the batch size is reached; nothing is lost or reordered and the buffer stays below the batch size |
| `AuditQueue.AsyncSink.Drain` | internal/audit/logger.go:180-191 | empties the channel into the buffer in order, then flushes |
| `AuditRuns.NothingLostOrReordered` | internal/audit/logger.go:117-201 | for each overflow policy and every interleaving, the events that entered the channel minus exactly those evicted are those handed over, then buffered, then queued, in order; every event offered has one fate |
| `AuditRuns.BatchesBounded` | internal/audit/logger.go:160-201 | every batch is non-empty and, but for the one that ends the drain, within the batch size |
| `AuditRuns.DrainedExactlyOnce` | internal/audit/logger.go:180-191 | once the consumer has stopped, exactly the events sent before its last look and not evicted were handed over, once and in order |
| `AuditRuns.AllHandedOverIff` | internal/audit/logger.go:178-201 | in every run, once the consumer has stopped, everything kept was handed over if and only if the channel is empty |
| `AuditRuns.LateEventIsStranded` | internal/audit/logger.go:112-158 | for every policy, sizes and event some run ends with the consumer stopped and the event accepted but never handed over |
| `AuditRuns.RunKeeps` | internal/audit/logger.go:117-201 | the channel is always the tail of what was sent, and what was taken from it is handed over, buffered or evicted |
| `AuditRuns.FatesFollowPolicy` | internal/audit/logger.go:117-158 | in every run an event is dropped only under the two drop policies, evicted only under drop-oldest and written directly only under the synchronous fallback; under the blocking policy every event either got in or is still with its producer |
| `AuditRuns.OfferDecides` | internal/audit/logger.go:117-158 | an event enters a channel that has room; otherwise it is dropped, written directly, makes its producer evict or makes it wait, as its policy says |
| `AuditRuns.EvictThenRetry` | internal/audit/logger.go:134-147 | a drop-oldest producer takes the oldest event and then sends its own, or drops it if there is again no room |
| `AuditRuns.OldestMakesRoom` | internal/audit/logger.go:134-147 | undisturbed, that replaces the oldest event of a full channel by the new one |
| `AuditRuns.ConsumerTakes` | internal/audit/logger.go:160-201 | the consumer takes the oldest event and hands over a buffer once it has the batch size; a tick hands over what there is |
| `AuditRuns.DrainHandsOver` | internal/audit/logger.go:178-191 | an undisturbed drain stops with everything queued and buffered handed over, in order |
| `Labels.ValidLabelName` | internal/observability/metrics.go:300-313 | accepts exactly the names of letters, digits and underscores that start with neither a digit nor two underscores |
| `Labels.LabelKey` | internal/observability/metrics.go:260-276 | computes the escaped encoding of the validly named labels in ascending order |
| `Labels.KeyIdentifiesLabels` | internal/observability/metrics.go:260-298 | two label maps have the same key if and only if they agree on their validly named labels |
| `Labels.EncodeIsInjective` | internal/observability/metrics.go:260-298 | the encoding of a list of named values determines the names and every value, whatever characters the values contain |
| `Labels.UnescapeUndoesEscape` | internal/observability/metrics.go:278-298 | a value read back with its backslash escapes undone is the value |
| `Labels.EscapedIsOneLine` | internal/observability/metrics.go:278-298 | an escaped value has no newline and every quote in it follows a backslash |
| `Labels.LessByFirstDifference` | internal/observability/metrics.go:260-276 | names are ordered by the first character in which they differ, and a name comes before its extensions |
| `Labels.KeyOfTwo` | internal/observability/metrics.go:260-298 | the key of two labels is both in that order, each as name, equals sign and quoted escaped value, with a comma between them |
| `Labels.NameShape` | internal/observability/metrics.go:300-313 | a name is valid if and only if it has only letters, digits and underscores, and starts with neither a digit nor two underscores |
| `Registry.SeriesHoldsItsOwn` | internal/observability/metrics.go:52-106 | over every history of calls a family has at most 2000 series, each holds the fold of exactly the calls with its labels, and a series is missing only if it had no calls or the family is full |
| `Registry.FullFamilyIsClosed` | internal/observability/metrics.go:52-106 | once a family is full its set of series never changes |
| `Registry.CounterIsSum` | internal/observability/metrics.go:52-65 | a counter's fold is the sum of its deltas |
| `Registry.GaugeIsLast` | internal/observability/metrics.go:67-80 | a gauge is the last value set |
| `Registry.BucketsCount` | internal/observability/metrics.go:82-106 | after any observations bucket i counts those at most bound i, with the exact count and sum |
| `Registry.RenderedIsExactIff` | internal/observability/metrics.go:155-160 | the rendered bucket i equals the number of observations at most bound i if and only if no observation is at most an earlier bound |
| `Registry.RenderedCountsTwice` | internal/observability/metrics.go:155-160 | one observation within two bounds is printed as two under the second |
| `Registry.Registry.CountersAreExact` | internal/observability/metrics.go:52-65 | in every reachable registry each admitted counter is the exact sum of the deltas given with its labels |
| `Registry.Registry.GaugesAreExact` | internal/observability/metrics.go:67-80 | in every reachable registry each admitted gauge is the last value set with its labels |
| `Registry.Registry.HistogramsAreExact` | internal/observability/metrics.go:82-106 | in every reachable registry each admitted histogram counts exactly the observations given with its labels |
| `Registry.Registry.IncCounter` | internal/observability/metrics.go:52-65 | the counters reflect the history with this call added; gauges and histograms are untouched |
| `Registry.Registry.SetGauge` | internal/observability/metrics.go:67-80 | the gauges reflect the history with this call added; the rest is untouched |
| `Registry.Registry.ObserveHistogram` | internal/observability/metrics.go:82-106 | the histograms reflect the history with this call added, under the bounds the family was first given |
| `Throttle.DenialThrottle.Allow` | internal/proxy/denial_throttle.go:27-58 | rolls the window over when it is due, answers and counts the call |
| `Throttle.DenialThrottle.Carry` | internal/proxy/denial_throttle.go:33-41 | keeps exactly the keys with refusals, with their counts |
| `ThrottleRuns.WindowsAreBounded` | internal/proxy/denial_throttle.go:27-58 | in every run each window admits at most the limit and each key once, and an admission reports exactly the key's refusals of the window before if that one opened less than two lengths earlier, else 0 |
| `ThrottleRuns.AdmittedIff` | internal/proxy/denial_throttle.go:27-58 | in every run a call is admitted if and only if its key was not yet admitted in the window that answers it and that window has fewer than `limit` admissions; a new window opens if and only if the last one is over |
| `ThrottleRuns.NoRefusalReportedTwice` | internal/proxy/denial_throttle.go:27-58 | over a whole run the counts reported for a key add up to at most its refusals |
| `ThrottleRuns.IntervalIsBounded` | internal/proxy/denial_throttle.go:27-58 | with a clock that never goes back, any interval of one window length admits at most twice the limit |
| `AuthCache.AuthCache.Store` | internal/auth/service.go:724-760 | the entry expires with the token or the cache time, whichever is first, and is listed under its user |
| `AuthCache.AuthCache.Look` | internal/auth/service.go:634-649 | answers exactly the unexpired entry, and tells exactly whether there is an expired one |
| `AuthCache.AuthCache.Remove` | internal/auth/service.go:638-642 | removes whatever is cached for the token by then, also a result stored in between, and keeps every cached token listed |
| `AuthCache.AuthCache.InvalidateUser` | internal/auth/service.go:588-599 | afterwards no entry of the user is left, and only listed tokens went |
| `AuthCache.AuthCache.InvalidateAll` | internal/auth/service.go:601-610 | afterwards nothing is cached or listed |
| `AuthCache.AuthCache.Sweep` | internal/auth/service.go:678-722 | afterwards nothing is expired, exactly the smaller of 10000 and the unexpired number is left, and everything evicted for size expires no later than everything kept |
| `AuthCache.ByExpiry` | internal/auth/service.go:698-711 | lists every cached token once, in ascending order of expiry |
| `AuthCache.UnlistedKeepsIndex` | internal/auth/service.go:685-693 | taking a removed token off the index keeps every remaining token listed under its user |
| `AuthCache.UnlistedDrops` | internal/auth/service.go:685-693 | exactly that listing goes, and a user left without a token |
| `AuthCacheRuns.HitIsCurrentIff` | internal/auth/sessions.go:33-91 | in every interleaving of requests, user changes, invalidations and removals, a cached result reflects every change whose invalidation has run if and only if no such invalidation overtook the request that stored it |
| `AuthCacheRuns.OvertakenIff` | internal/auth/sessions.go:59-89 | a request stores exactly what it read, and that is overtaken if and only if its user was changed and then invalidated between its read of the user and its store |
| `AuthCacheRuns.InvalidatedIsGone` | internal/auth/service.go:588-599 | in every run nothing cached for a user before an invalidation of that user is cached after it |
| `AuthCacheRuns.CachedAfterIff` | internal/auth/service.go:588-760 | in every run a result is cached after a step if and only if the step stores it, or it was and is neither removed nor listed under a user that the step invalidates; it changes only by a store |
| `AuthCacheRuns.OutdatedIsServed` | internal/auth/service.go:724-760 | for every user and token some run leaves a cached result from before a change that was invalidated |
| `AuthCacheRuns.RunKeeps` | internal/auth/service.go:588-760 | in every run each cached token is listed under its user and knows whether it was overtaken |
| `Paths.SegmentsExtend` | internal/proxy/access_rules.go:94-97 | the segments of a path are a prefix of the segments of that path followed by a slash and anything |
| `Paths.StripAtSlash` | internal/proxy/manager.go:882-888 | stripping parameters goes segment by segment: it commutes with joining two paths |
| `Paths.StripCutsEachPart` | internal/proxy/manager.go:882-888 | the stripped path has no semicolon and as many parts as the path, each of them the part before its first semicolon |
| `Paths.JoinOfSplit` | internal/proxy/access_rules.go:94-97 | splitting loses nothing: the parts hold no slash and joined by slashes are the path |
| `Paths.SplitOfJoin` | internal/proxy/access_rules.go:94-97 | and it is the inverse of joining parts that hold no slash |
| `Paths.SegmentsJoin` | internal/proxy/access_rules.go:94-97 | the segments joined by slashes are the path but for slashes at both ends, so neither the first nor the last is empty |
| `Paths.FieldsOfParts` | internal/proxy/access_rules.go:76-82 | the fields of a pattern are its parts, with or without a slash in front |
| `Paths.DoubledSlash` | internal/proxy/access_rules.go:76-82 | a doubled slash in a pattern makes no difference |
| `AccessRules.ParseSources` | internal/proxy/access_rules.go:54-74 | yields the included and excluded prefixes in order if every source parses, and otherwise names one that does not |
| `AccessRules.ParsePaths` | internal/proxy/access_rules.go:76-82 | yields the segment lists of the non-blank path patterns |
| `AccessRules.CompileOne` | internal/proxy/access_rules.go:24-49 | compiles a rule if and only if its action is known and every source parses |
| `AccessRules.Compile` | internal/proxy/access_rules.go:21-52 | succeeds if and only if every rule is well-formed, then compiles each under its own 1-based index; otherwise it reports the first bad rule |
| `AccessRules.CompiledMeansRaw` | internal/proxy/access_rules.go:84-120 | a compiled rule matches an address and path if and only if the raw rule applies to them |
| `AccessRules.CompilationPreservesFirstMatch` | internal/proxy/access_rules.go:21-150 | the first compiled match and the first raw rule that applies are the same, with the same index |
| `AccessRules.MatchRule` | internal/proxy/access_rules.go:133-150 | finds the first compiled rule that matches, or that none does |
| `AccessRules.FirstMatching` | internal/proxy/access_rules.go:122-131 | names the first raw rule that applies, if the list compiles and one does |
| `AccessRules.AllowIsSafe` | internal/proxy/access_rules.go:133-150 | if the combined decision is to allow, then the raw path alone and the path stripped of parameters alone each lead to allow |
| `AccessRules.RuleAppliesBelow` | internal/proxy/access_rules.go:84-120 | a rule that applies to a path applies to everything below it |
| `AccessRules.RuleHitsBelow` | internal/proxy/access_rules.go:133-150 | a rule that decides for a path, over its raw and its stripped form, decides for everything below it |
| `AccessRules.CaseMattersToAllow` | internal/proxy/access_rules.go:84-120 | a deny rule meets a segment that differs from its pattern only by case, an allow rule does not |
| `AccessRules.OnePatternApplies` | internal/proxy/access_rules.go:84-120 | a rule for one path and any source applies if and only if the path has at least its parts and each is a star, the segment, or unless it allows, the segment but for case |
| `AccessRules.EitherViewDenies` | internal/proxy/access_rules.go:133-150 | a rule that does not allow decides if it applies to the raw path or to the stripped one, an allow rule only if it applies to both |
| `AccessRules.SourceSigns` | internal/proxy/access_rules.go:84-93 | no plain entry admits everyone, a plain one admits what it covers, a negated one excludes what it covers, also from a plain one |
| `AccessRules.CoversMeans` | internal/proxy/access_rules.go:54-74 | an entry covers the prefixes of what follows its exclamation mark, if it has one |
| `AccessRules.GoodRuleMeans` | internal/proxy/access_rules.go:24-74 | a rule compiles if and only if its action is allow, authenticate or deny but for case and blanks, and every entry that is not blank yields prefixes |
| `Recorder.Recorder.constructor` | internal/accesslog/accesslog.go:66-83 | an empty ring of the given capacity, or of 2000 if that is not positive |
| `Recorder.Recorder.Record` | internal/accesslog/accesslog.go:85-104 | the ring holds the last `capacity` of all entries recorded |
| `Recorder.Recorder.List` | internal/accesslog/accesslog.go:106-128 | equals the first `limit` matches, newest first, of the last `capacity` entries, for every filter; a limit outside 1 to 1000 is 200 |
| `Recorder.UnrolledPushed` | internal/accesslog/accesslog.go:89-94 | writing a slot and advancing round the ring adds the newest entry and, when full, drops the oldest |
| `Recorder.FromNewest` | internal/accesslog/accesslog.go:119-121 | counting back from the write position modulo the capacity visits the entries newest first |
| `Recorder.MatchesMean` | internal/accesslog/accesslog.go:106-128 | the entries listed are exactly those retained that satisfy the filter |
| `Recorder.MatchesReverse` | internal/accesslog/accesslog.go:106-128 | of two entries that satisfy the filter, the later one is listed first |
| `RotatingFile.RotatingFile.WriteLine` | internal/accesslog/rotate.go:49-58 | everything written is the dropped lines followed by the files from oldest to live, lines drop only as the oldest whole file, numbers stay gap-free, and files this process started are within the limit or hold one line |
| `RotatingFile.RotatingFile.Rotate` | internal/accesslog/rotate.go:60-72 | every file moves up by one number, the last one drops and the live file is empty; nothing else is lost |
| `RotatingFile.RotatingFile.MoveUp` | internal/accesslog/rotate.go:64-68 | removing the last file and renaming downwards moves each file up by one without overwriting another |
| `RotatingFile.RotatingFile.constructor` | internal/accesslog/rotate.go:17-47 | takes over the files found, with the default limits for values that are not positive; a live file that was not there counts as started by this process |
| `RotatingFile.JoinedShifts` | internal/accesslog/rotate.go:64-71 | moving every file up by one keeps the contents of the files joined in order |
| `ProvisionRuns.EnrollsOncePerEpoch` | cmd/nodeagent/provision.go:53-136 | over retries, crashes and restarts, with well-formed replies, successful saves and no crash between an enroll reply and its save, the hub enrolls the node at most once between two clearings |
| `ProvisionRuns.KeysOnFileAndFixed` | cmd/nodeagent/provision.go:105-120 | every key pair sent to bootstrap was on file when sent, still is until the enrollment is cleared, and is the only one sent until then |
| `ProvisionRuns.FileIsMemory` | cmd/nodeagent/provision.go:87-136 | whenever a pass has returned, to be retried, for good or with success, the file is what is in memory |
| `ProvisionRuns.NextKeeps` | cmd/nodeagent/provision.go:53-136 | every careful step of the process, including crash and restart, keeps what file, memory and hub have in common |
| `ProvisionRuns.RunKeeps` | cmd/nodeagent/main.go:124-142 | the invariant holds in every state of every careful run, started over any file |
| `ProvisionRuns.SentIsFiledIff` | cmd/nodeagent/provision.go:105-120 | in every run with well-formed replies, whatever saves fail and wherever the process crashes, a key pair was on file when sent if and only if no failed save of the keys was still uncovered |
| `ProvisionRuns.EnrollsAgainIff` | cmd/nodeagent/provision.go:87-104 | in every such run an enroll reply is not the first since the last clearing if and only if a process was gone before its enrollment was saved |
| `ProvisionRuns.UnsavedKeysAreSent` | cmd/nodeagent/provision.go:105-117 | a run from an empty file, with a failed save of the keys, sends any key that is not on file |
| `ProvisionRuns.CrashEnrollsTwice` | cmd/nodeagent/provision.go:96-103 | a run from an empty file, with a crash between the enroll reply and its save, enrolls twice without a clearing |
| `ProvisionRuns.RestartReadsFile` | cmd/nodeagent/main.go:124-142 | a process gone at any point starts again from the file alone, running if the file provisions the node and from the beginning otherwise |
| `Provision.Provisioner.Pass` | cmd/nodeagent/provision.go:87-136 | with well-behaved answers every pass ends in a state of a careful run of the machine with the file equal to the memory, however it returns; an enrolled node does not enroll again, and a new enrollment holds the node id and token the hub granted and is saved before anything else; what it connects with, its failure, where that leaves it and what the file then holds all follow from the answers |
| `Provision.Provisioner.Connect` | cmd/nodeagent/provision.go:105-136 | a node without a key pair takes the generated one, private and public half in place, and saves it before it sends; the new send carries the public key and notes the file at that moment; the tunnel taken over, the failure and the file follow from the replies, and nothing else of the node changes |
| `Provision.Provisioner.Join` | cmd/nodeagent/provision.go:87-136 | without a token or a grant nothing changes; otherwise the node is the granted enrollment, with no keys and no tunnel, saved before it connects |
| `Provision.Provisioner.Bootstrap` | cmd/nodeagent/provision.go:117-136 | on success the node has exactly the granted tunnel, kept alive every 25 seconds if it does not say how often, and the file holds it if the save succeeds; a refused call changes neither node nor file |
| `Provision.Provisioner.Clear` | cmd/nodeagent/provision.go:66-71 | the file is emptied if the save succeeds and untouched otherwise |
| `Provision.Provisioner.Run` | cmd/nodeagent/provision.go:53-85 | retries exactly the failures other than refusals, refusals with 409, 412, 429 or from 500 on, with waits that start at five seconds or the given time and double up to five minutes; gives up on others, on success has the tunnel of the last pass in memory and on file, and clears the file exactly when the bootstrap call was refused with 401 or 404 |
| `Provision.Provisioner.constructor` | cmd/nodeagent/main.go:124-142 | a launch over an unprovisioned file is a start of the machine |
| `Forwarder.LastTargetWins` | cmd/nodeagent/forwarder.go:118-124 | a port is wanted if and only if a usable target names it, and the last such target decides the address |
| `Forwarder.Forwarder.Reconcile` | cmd/nodeagent/forwarder.go:114-148 | the listeners are the wanted ports minus those that failed to open, unchanged ports keep their listener, others get a new one, and every listener ever opened is in the map on one port or closed once |
| `Forwarder.Forwarder.Stop` | cmd/nodeagent/forwarder.go:165-172 | no listener is left and each ever opened was closed exactly once |
| `Forwarder.ClosingKeeps` | cmd/nodeagent/forwarder.go:126-132 | closing and forgetting a listener keeps the account of opened, held and closed ones |
| `Forwarder.OpeningKeeps` | cmd/nodeagent/forwarder.go:134-147 | so does opening one on a port that has none |
| `Reencrypt.DataEncryptionSecrets` | internal/config/config.go:493-505 | the trimmed active secret first, then the trimmed legacy ones, without blanks |
| `Reencrypt.DecryptWithSecrets` | internal/secureconfig/secrets.go:153-169 | the text under the first non-empty secret that opens the value |
| `Reencrypt.SecretsMean` | internal/config/config.go:493-505 | the secrets tried are exactly the trimmed active and legacy ones that are not blank, the active one first |
| `Reencrypt.OpenedByMeans` | internal/secureconfig/secrets.go:153-169 | a value opens if and only if a non-empty secret opens it, and then as the first such secret does |
| `Reencrypt.Status` | internal/http/security_rotation.go:47-84 | counts the rows that need re-encryption and those no secret opens |
| `Reencrypt.KindDecides` | internal/http/security_rotation.go:47-84 | a row is current if and only if it has the latest form and the active secret reads it, a candidate if and only if it is not and some secret does, else unreadable |
| `Reencrypt.CandidateIsSealed` | internal/http/security_rotation.go:103-140 | a candidate becomes its own configuration sealed under the active secret if sealing and storing succeed, and fails unchanged otherwise; a dry run only counts it |
| `Reencrypt.OthersAreLeft` | internal/http/security_rotation.go:103-140 | blank and current rows are skipped, unreadable ones fail, and none of them changes |
| `Reencrypt.FailedIdsMean` | internal/http/security_rotation.go:103-140 | the ids collected are exactly those of rows that failed |
| `Reencrypt.Providers.Reencrypt` | internal/http/security_rotation.go:86-168 | every row is treated independently of the others; the counters, failed ids and stored values follow from that; at most 20 ids are shown |
| `Reencrypt.CountsAddUp` | internal/http/security_rotation.go:103-140 | updated, skipped and failed add up to the number of providers |
| `Reencrypt.DryRunIsStatus` | internal/http/security_rotation.go:47-140 | a dry run's updated and failed counts are the status report's candidates and failures, and it changes nothing |
| `Reencrypt.RunKeepsPlaintexts` | internal/http/security_rotation.go:103-140 | with an active secret that is neither empty nor padded, every row reads as before, whatever fails on the way |
| `Reencrypt.ReadableIff` | internal/http/data_crypto.go:7-26 | for any active secret given to the handler, a re-encrypted row reads back as before if and only if the secret is neither empty nor padded |
| `Reencrypt.RunConverges` | internal/http/security_rotation.go:47-140 | after a run without cipher or store errors under a non-empty secret, the status shows no candidates and the same failures |
| `Reencrypt.EmptySecretLosesRows` | internal/http/security_rotation.go:103-140 | under an empty active secret the former candidates all become failures |
| `Reencrypt.FailuresStayIff` | internal/http/security_rotation.go:47-140 | the failures stay the same if and only if there is an active secret or there were no candidates |
| `Reencrypt.LoadedIsProper` | internal/config/config.go:523-536 | a configuration that loading and validation accept has an active secret that is neither empty nor padded |
| `Reencrypt.StartsIff` | internal/config/config.go:523-536 | a server starts if and only if the environment has a secret that is not blank, or development mode has a generated one |
| `Reencrypt.ServerRunConverges` | internal/http/security_rotation.go:47-140 | on every server that starts, a real run leaves every row reading as before, and without cipher or store errors the next status shows no candidates and the same failures |

## Left out

- The frontend, CLI wizards, configuration loading beyond the data secret, HTTP handlers, routing, OIDC, WebAuthn, mail, webhooks, DNS clients and GeoIP: plumbing and foreign calls.
- Cryptography, JWT, JSON and SQL are abstract: opening undoes sealing, tokens are fresh, statements are atomic.
- Writes to the certificate table by another hub process: they do not reach this process's cache, so the coherence results are for one process.
- Domain and lock-name normalisation (`normalizeDomain`, `cleanKey`): names are taken as normalised.
- `CertMagicStorage.List`, `Exists`, `Delete` and the stored-value migration: they rest on SQL patterns.
- MutualExclusion: all instances share one clock, the lateness of loops and statements is bounded so that a third of each lease plus twice the bound is below the lease, and an explicit renewal asks for more than the renewal period plus those delays.
- Drain: producers do not send during this method; `AuditRuns` interleaves them with every step of the drain.
- Group memberships are read between the user and the store; `AuthCacheRuns` dates a cached result by its user alone.
- Authentication without a session, login tokens, attempt limits and rate limits around the second factor.
- The Redis side of the authentication cache and of rate limiting.
- `Filter.matches` of the access log: `Recorder.List` is proved for every filter instead. The access log's queue to the file and its drop counter are left out too.
- I/O errors of the rotating file: `RotatingFile` is over a file system where only a missing file can fail a rename.
- IncCounter, SetGauge and ObserveHistogram: floating-point rounding is not modelled, values are real numbers.
- Accepting and relaying connections on a tunnel listener, and the check that the peer is the hub.
- Concurrent edits of a provider while it is re-encrypted: the run is one operation over the rows it listed.
- The start-up migration of provider secrets and of lock values: the same loop with fewer counters.
