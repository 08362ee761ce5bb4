# FinnApiGo: verified model of its stateful core

FinnApiGo is an authentication server. This project models the four state
machines inside it whose guarantees span whole runs, and proves those
guarantees with Dafny.

- **Durable audit pipeline.** Each tenant has a keyed hash chain of events
  (HMAC, section 2 of RFC 2104). `Admit` extends it and queues the event in an
  outbox; workers claim, deliver, fail and requeue rows under fenced leases;
  archives move a boundary over the chain. `AuditEvent`, `AuditChain` and
  `AuditPipeline` define the data and one value-level step per SQL transaction;
  `AuditInvariant`, `AuditDelivery` and `AuditArchive` prove what every
  interleaving keeps; `AuditDispatch` is the ordered claim query and the states
  in which a dispatch stops short; `KeyHistory` covers the startup check of the key ring;
  `AuditRepository` is the imperative repository, each method proved equal to
  its step. `AuditOperation` is the commit policy around every service call, over
  arbitrary trees of nested operations.
- **Refresh-token families and access state.** `RowLocks` is a table under row
  locks with undo images. `TokenFamily` is the statement-by-statement system of
  concurrent logins, refreshes, revocations and purges (rotation as in section
  10.4 of RFC 6749); `FamilyInvariant`, `FamilySteps` and `FamilySafety` prove
  the run theorems; `TokenService` is the imperative service. `Authority` is
  the liveness check of access tokens with all durable mutators,
  `PermissionList` its list comparison, `Containment` joins the two halves, and
  `BatchedDelete` is the purge loop.
- **TTL store and its users.** `TtlStore` is the in-memory store and its
  refinement of a plain TTL map; `RateWindow` the fixed-window counters and the
  Redis script; `LeaderLease` the job locks; `OneTimeUse` the single-use tokens
  and the TOTP replay guard (section 5.2 of RFC 6238).
- **JWT key rotation.** `JwtRotation` covers issuing, verification and the drain
  deadline (sections 4.1.4 to 4.1.6 of RFC 7519, section 4.1.4 of RFC 7515).

`Common` holds the shared value types. `dafny verify dfyconfig.toml` checks
everything.

## Conventions

- The MAC is a parameter, collision-free in its payload where a lemma says so.
  A canonical payload is a tuple; a missing user id and user id 0 coincide in it.
- A transaction that the source runs atomically is one step. Token families are
  finer: one step per SQL statement. Consistent reads see the snapshot of the
  transaction's first read; UPDATE and INSERT act on the current row under a
  lock held to the end of the transaction; a statement that would wait is not
  enabled until the lock is free.
- History variables (`admitted`, `tokens`, `family`, `logins`, `rotations`) record
  what happened. No operation decides anything by them except that new ids are new.
- Clocks, random ids, the row an ordered SKIP LOCKED query returns, and whether
  COMMIT succeeds are parameters. Times are integers in a unit that the module
  states; the results hold for every unit.

## Findings

- internal/services/auth_service.go:1976-2030, internal/jwt/jwt.go:240-242: a
  reset or verify token that was consumed can be consumed again inside the 30 s
  leeway. It happens exactly when a flush emptied the store, nobody has presented
  the token since, and `used_tokens` was purged after the token's expiry
  (`OneTimeUse.ReuseExact`; `OneTimeUse.LeewayReuse` is a concrete run). Up to the
  token's own expiry it is impossible (`OneTimeUse.UsedOnceDespiteFlush`), and
  without a flush it is impossible at all times (`OneTimeUse.UsedOnce`).
- internal/jwt/v1.go:93-109: an access token whose issue and expiry fall into one
  second is refused by every manager at all times
  (`JwtRotation.SubSecondTokenIsDead`); every TTL below a second has such issue
  times (`JwtRotation.SubSecondHappens`); the exact condition is
  `JwtRotation.IssuedIsUsable`.
- internal/store/redis.go:27-33: a Redis server that drops a key at its exact
  deadline counts differently from the in-memory store precisely when some hit
  falls on a deadline (`RateWindow.RedisAgrees`).
- internal/services/totp_service.go:34-37: the comment asks for three steps
  (90 s) of replay memory; one unit less than that is the exact bound
  (`OneTimeUse.OneTimeExact`).
- internal/repositories/audit_outbox.go:121-132 and 205-212: when `Claim` buries a
  row it reports "nothing to claim", so a `Dispatch` call stops there even if
  other rows are due. An iteration gives the empty answer exactly when nothing is
  due or the first due row is exhausted
  (`AuditRepository.Repository.DispatchOne`), and a state with an exhausted row
  in front of a due one is reachable (`AuditDispatch.BurialStopsDispatch`).

## Model

| member | source | states |
|---|---|---|
| AuditEvent.DecodeDomain | internal/audit/audit.go:116-141 | the loop over one key domain succeeds exactly when every id has 1 to 64 characters, every value decodes and none is reserved, and then returns the decoded map |
| AuditEvent.NewKeyRing | internal/audit/audit.go:111-146 | a ring is built exactly when the configuration is acceptable: each domain has at most 8 usable keys and its current one, and the domains share no material; it then holds exactly the decoded keys |
| AuditChain.VerifyEvents | internal/repositories/audit_archive.go:58-78 | the row-by-row loop accepts exactly the slices in which every row is positioned, linked and sealed and which end at the end checkpoint |
| AuditChain.SealPinsRow | internal/audit/audit.go:204-233 | under a collision-free MAC two sealed rows with one record hash agree on every signed field |
| AuditChain.ChainUnique | internal/repositories/audit_archive.go:58-78 | two chains of any length with the same start and the same end hash agree on every signed field of every row |
| AuditChain.VerifiedIsAdmitted | internal/repositories/audit_archive.go:58-89 | a slice accepted against checkpoints of the admitted history is that history, on all signed fields |
| AuditChain.VerifiedSlicesAgree | internal/repositories/audit_archive.go:82-89 | any two row sequences accepted for the same base and end agree on all signed fields |
| AuditInvariant.AdmitInv | internal/repositories/audit_outbox.go:54-98 | Admit keeps the pipeline invariant, whether it succeeds or fails |
| AuditInvariant.AdmitExtends | internal/repositories/audit_outbox.go:54-98 | a successful Admit extends the caller's chain by exactly the signed event; a failed one and every other tenant's chain change nothing |
| AuditInvariant.DeliverEffect | internal/repositories/audit_outbox.go:138-176 | from an invariant state Deliver changes nothing or inserts exactly the admitted event and acknowledges its row |
| AuditInvariant.PurgeInv | internal/repositories/audit_archive.go:161-203 | PurgeArchive keeps the invariant, whatever archive is presented |
| AuditInvariant.RestoreInv | internal/repositories/audit_archive.go:208-240 | RestoreArchive keeps the invariant, whatever archive is presented |
| AuditInvariant.AnonymizeInv | internal/repositories/audit_repository.go:106-110 | erasing a user's unsigned columns keeps the invariant |
| AuditInvariant.StepInv | internal/repositories/audit_outbox.go:54-199 | every step of every worker or operator keeps the invariant |
| AuditInvariant.PipelineSafety | internal/repositories/audit_outbox.go:54-199 | in every reachable state the outbox is exactly 1..head hash-linked from genesis, the log is exactly the delivered events above the boundary, the boundary hash is the chain's, and pending counts the undelivered rows within the limit |
| AuditInvariant.AdmitExact | internal/repositories/audit_outbox.go:54-98 | admission succeeds exactly for a capturable event with a new id while the backlog is below the limit |
| AuditDelivery.ReclaimFences | internal/repositories/audit_outbox.go:100-186 | after a row is claimed again no earlier holder's Deliver or FailClaim changes anything, ever |
| AuditDelivery.DeliveredOnce | internal/repositories/audit_outbox.go:138-176 | at most one Deliver of an event takes effect in a run; a replay never reinserts a purged event |
| AuditDelivery.HandOutsBounded | internal/repositories/audit_outbox.go:105-134 | between requeues an event is handed out at most 8 times |
| AuditDelivery.ClaimsBounded | internal/repositories/audit_outbox.go:100-199 | without admissions and requeues all workers together make at most 9 claims per undelivered row |
| AuditArchive.VerifyChainExact | internal/repositories/audit_archive.go:93-119 | VerifyChain succeeds exactly when there are no legacy rows, pending is 0 and the keys of the logged rows are retained |
| AuditArchive.CheckpointStaysGenuine | internal/repositories/audit_archive.go:46-89 | whatever is accepted later against a head checkpoint taken anywhere earlier in the run is the history admitted by then, which the chain still begins with |
| AuditArchive.LogVerifiedAgainstOldHead | internal/repositories/audit_archive.go:80-89 | the stored log passes VerifyAgainst an old head checkpoint only if it holds exactly the events admitted up to it |
| AuditArchive.PurgeRespectsCutoff | internal/repositories/audit_archive.go:161-203 | PurgeArchive deletes only stored rows older than the cut-off although it checks dates on the caller's copy |
| AuditArchive.InsertSucceeds | internal/repositories/audit_archive.go:208-240 | the rows just below the boundary can always be put back: no index refuses them |
| AuditArchive.PurgeThenRestore | internal/repositories/audit_archive.go:123-240 | purging an exported archive and restoring it gives back every boundary and, on signed fields, the log, with heads and outbox untouched |
| KeyHistory.ProbeDistinct | internal/repositories/audit_outbox.go:260-279 | the truncated DISTINCT probe returns distinct ids of the table, all of them when it is not cut |
| KeyHistory.ValidateKeyHistory | internal/repositories/audit_outbox.go:260-279 | the check capped at 9 ids per table accepts exactly when every key id in the log and the undelivered outbox is in the ring |
| KeyHistory.ValidatedChain | internal/repositories/audit_outbox.go:260-279 | after a successful check a tenant without legacy rows verifies locally exactly when its pending count is 0 |
| AuditRepository.Repository.Admit | internal/repositories/audit_outbox.go:54-98 | the method performs the Admit step on the live tables and returns its error |
| AuditRepository.Repository.Claim | internal/repositories/audit_outbox.go:105-134 | takes the picked row's lease, or buries it after the eighth attempt; the returned claim holds the lease |
| AuditRepository.Repository.Deliver | internal/repositories/audit_outbox.go:138-176 | the Deliver step, with its error cases |
| AuditRepository.Repository.FailClaim | internal/repositories/audit_outbox.go:178-186 | the FailClaim step with exponential back-off |
| AuditRepository.Repository.RequeueDead | internal/repositories/audit_outbox.go:190-199 | the RequeueDead step; not found leaves everything |
| AuditRepository.Repository.DispatchOne | internal/repositories/audit_outbox.go:205-217 | one iteration takes the first due row; it gives the empty answer exactly when nothing is due or that row is exhausted and now buried, and otherwise removes one event from the backlog or reports an error |
| AuditRepository.Repository.Dispatch | internal/repositories/audit_outbox.go:201-221 | the counting loop keeps the invariant and removes from the backlog exactly as many events as it reports; without error it stops short only when nothing is due or it has buried an exhausted row, and an exhausted row in front stops it at 0 |
| AuditDispatch.FirstExists | internal/repositories/audit_outbox.go:109-115 | among due rows that are not locked there is a first by available_at and event id |
| AuditDispatch.BurialStopsDispatch | internal/repositories/audit_outbox.go:121-132 | for every ring and every backlog limit of at least two, a reachable state has an exhausted row in front of a due one, which stays due when the first is buried |
| AuditRepository.Repository.VerifyChain | internal/repositories/audit_archive.go:93-119 | answers the declarative verification, and tells a foreign tenant, legacy rows and an integrity failure apart |
| AuditRepository.Repository.Archive | internal/repositories/audit_archive.go:123-157 | returns the verified, normalized, size-limited export, or a policy error, or an integrity error |
| AuditRepository.Repository.PurgeArchive | internal/repositories/audit_archive.go:161-203 | the PurgeArchive step, with its error cases |
| AuditRepository.Repository.RestoreArchive | internal/repositories/audit_archive.go:208-240 | the RestoreArchive step, with its error cases, personal data and a taken index among them |
| AuditRepository.Export | internal/repositories/audit_archive.go:138-150 | the export loop computes the normalized prefix of rows older than the cut-off |
| AuditRepository.Reinsert | internal/repositories/audit_archive.go:226-236 | the insert loop computes the all-or-nothing insertion and the error of the first row that fails |
| AuditOperation.NestingTransparent | internal/repositories/audit_outbox.go:23-49 | an operation tree of any depth acts like the flat list of its leaves |
| AuditOperation.LatchMeaning | internal/database/transaction.go:28-59 | the latch ends without failure exactly when every record was admitted, and knows whether there was a record and a success |
| AuditOperation.OperationExact | internal/repositories/audit_outbox.go:23-49 | an operation takes effect if and only if every record was admitted, COMMIT went through and the result is nil or a listed denial with evidence and no success; otherwise the database is as before and the caller sees an error |
| AuditOperation.SuccessIsEvidenced | internal/services/audit_operations.go:19-32 | if the caller sees success or the operation took effect, every recorded event is in its tenant's chain and in the outbox with its position, hash and payload, pending |
| AuditOperation.OperateInv | internal/repositories/audit_outbox.go:23-49 | however a tree of operations runs and ends, the pipeline invariant survives, so the chain it extended is the one all pipeline results speak of |
| AuditOperation.Operation.Admitted | internal/database/transaction.go:28-33 | counts the admission and remembers a success |
| AuditOperation.Operation.Fail | internal/database/transaction.go:52-58 | keeps the first failure |
| AuditOperation.Services.RecordEvent | internal/repositories/audit_repository.go:50-62 | admits the event or latches the failure, as the value-level step says |
| AuditOperation.Services.AuditOperation | internal/repositories/audit_outbox.go:23-49 | the object-level operation, nested or outermost, has exactly the value-level outcome |
| FamilySteps.StepInv | internal/services/auth_service.go:755-859 | every statement, commit, abort, purge and tick keeps the family invariant |
| FamilySteps.SwapFamily | internal/repositories/refresh_token_repository.go:76-88 | the compare-and-set keeps the at-most-one-claim invariant of every family |
| FamilySteps.SwapHandsOver | internal/repositories/refresh_token_repository.go:76-88 | winning it takes the family's claim from the token and makes the winner the only claimant |
| FamilySteps.AbortFamily | internal/repositories/refresh_token_repository.go:76-88 | a rollback keeps the at-most-one-claim invariant of every family |
| FamilySteps.AbortGivesBack | internal/repositories/refresh_token_repository.go:76-88 | a rollback gives the claim back to the committed token it had taken, and to nobody else |
| FamilySteps.KillContains | internal/services/auth_service.go:837-859 | when the reuse handler has revoked the family's tokens nobody can use the family or is about to |
| FamilySafety.AtMostOneClaim | internal/services/auth_service.go:755-829 | in every reachable state the unrevoked tokens and in-flight winners of one session are together at most one |
| FamilySafety.AtMostOneLive | internal/repositories/refresh_token_repository.go:76-88 | the committed tables never hold two usable tokens of one session |
| FamilySafety.RotationsBounded | internal/services/auth_service.go:791-829 | every committed rotation was checked and issued before login time plus RefreshTTL |
| FamilySafety.RotatedOnce | internal/repositories/refresh_token_repository.go:76-88 | no token is rotated twice, and a rotated token is never usable again |
| FamilySafety.ContainmentKills | internal/services/auth_service.go:837-859 | committing the reuse handler leaves the session revoked, no usable token and no winner in flight |
| FamilySafety.ContainmentIsolated | internal/services/auth_service.go:837-859 | that commit changes no row of any other session |
| FamilySafety.DeadForever | internal/services/auth_service.go:766-804 | a dead family stays dead in every continuation and none of its tokens is rotated again |
| FamilySafety.ReuseContained | internal/services/auth_service.go:766-859 | from any start, once a reuse handler commits, no later refresh of that family succeeds |
| FamilySafety.RotatedTokenIsReuse | internal/services/auth_service.go:755-773 | presenting a rotated, unpurged token in any reachable state leads to the reuse handler of its family |
| FamilySafety.RotatedTokenContained | internal/services/auth_service.go:755-859 | from that presentation on, whatever is interleaved, if the transaction commits its family is dead for good and no later refresh of it succeeds |
| TokenService.AuthService.Login | internal/services/auth_service.go:1633-1694 | adds one session row and its first token, both expiring RefreshTTL after now, and nothing else; with a RefreshTTL that is not positive it fails and changes nothing |
| TokenService.AuthService.Refresh | internal/services/auth_service.go:755-829 | rotates exactly when token, user and session are alive; a theft signal revokes exactly that family; any other refusal leaves the tables as they were |
| TokenService.AuthService.Contain | internal/services/auth_service.go:837-859 | revokes the session row and every token of the family, and nothing else |
| Containment.AccessDies | internal/identity/state.go:74-83 | after containment the check refuses every access token of that session at every later moment |
| Authority.AccessState.Check | internal/identity/state.go:37-103 | accepts exactly when no deny list names the token and the durable state allows it, permissions compared as sets |
| Authority.AccessState.Suspend | internal/identity/state.go:118-132 | suspends an owned account, bumps both counters and revokes its sessions; no token of the user is accepted afterwards |
| Authority.AccessState.RevokeAccess | internal/identity/state.go:107-114 | adds the denial; no token with that jti is accepted afterwards; an empty jti is refused |
| Authority.AccessState.CredentialChange | internal/repositories/user_repository.go:173-186 | bumps the version and revokes the sessions; every token accepted before is refused |
| Authority.AccessState.AssignRole | internal/repositories/rbac_repository.go:63-78 | grants an assignable role and bumps the epoch together; every token accepted before is refused |
| Authority.PermissionsStable | internal/repositories/rbac_repository.go:31-93 | a user's live permissions change only together with the user's epoch |
| Authority.EpochsGrow | internal/repositories/user_repository.go:107-186 | no mutator lowers a version or epoch, reactivates or unsuspends a user |
| Authority.RevocationPermanent | internal/identity/state.go:37-132 | a token accepted at issue and refused later is refused in every state reachable after that |
| PermissionList.SameSetExactly | internal/identity/state.go:95-100 | sort, compact and equal accepts exactly when both lists hold the same set |
| BatchedDelete.DeleteMatching | internal/repositories/batched_delete.go:15-27 | whatever rows each LIMIT statement picks, the loop removes exactly the matching rows and reports their number |
| BatchedDelete.PurgeExpired | internal/repositories/refresh_token_repository.go:124-132 | the two streams leave exactly the rows that are neither expired nor revoked, and report the number removed |
| TtlStore.StoreRefinesPlainMap | internal/store/store.go:112-305 | on every history with a nondecreasing clock the store answers like a plain map without reaping or sweeping |
| TtlStore.SweepsInvisible | internal/store/store.go:286-305 | adding sweeps anywhere changes no reply of the other calls |
| TtlStore.InMemoryStore.Get | internal/store/store.go:112-125 | the live value, reaping an expired entry |
| TtlStore.InMemoryStore.Take | internal/store/store.go:128-141 | the live value, removing the entry |
| TtlStore.InMemoryStore.Set | internal/store/store.go:144-152 | the entry with its deadline, none for a TTL of zero or less |
| TtlStore.InMemoryStore.SetNX | internal/store/store.go:155-168 | writes exactly when no live entry is there |
| TtlStore.InMemoryStore.IncrBy | internal/store/store.go:176-200 | counts within the running window, or opens a new one |
| TtlStore.InMemoryStore.Delete | internal/store/store.go:203-207 | removes the entry |
| TtlStore.InMemoryStore.Renew | internal/store/store.go:212-226 | moves the deadline of a live entry only |
| TtlStore.InMemoryStore.RenewIfOwner | internal/store/store.go:231-247 | moves the deadline of a live entry of that owner only |
| TtlStore.InMemoryStore.DeleteIfOwner | internal/store/store.go:252-264 | removes an entry of that owner only |
| TtlStore.InMemoryStore.Sweep | internal/store/store.go:286-305 | removes at most a batch of entries, only expired ones, and all of them when the batch is short |
| RateWindow.FixedWindowBound | internal/store/store.go:176-200 | in any interval of k window lengths at most (k+1)*limit requests pass, for every call sequence |
| RateWindow.RedisAgrees | internal/store/redis.go:27-33 | the Redis script returns the same counts exactly when it keeps keys through their deadline or no hit falls on one |
| LeaderLease.LeaseHolds | internal/jobs/leader.go:102-117 | until the lease runs out the lock entry is the one of the leader's last affirmative answer |
| LeaderLease.LeasesDisjoint | internal/jobs/leader.go:102-151 | two different instances lead more than lockTTL apart unless the earlier one released |
| LeaderLease.PunctualLeaderStays | internal/jobs/leader.go:102-117 | an instance that renews within lockTTL is told it leads again |
| LeaderLease.LeaderRunner.IsLeader | internal/jobs/leader.go:102-117 | the answer and the store are those of SetNX, then of RenewIfOwner |
| LeaderLease.LeaderRunner.ReleaseLock | internal/jobs/leader.go:143-151 | removes the lock only if it is this instance's |
| OneTimeUse.UsedOnce | internal/services/auth_service.go:1976-2030 | without a flush a token is consumed at most once at all times it verifies, leeway included |
| OneTimeUse.UsedOnceDespiteFlush | internal/repositories/used_token_repository.go:27-60 | with flushes at any moment a second consumption can only come after the token's expiry |
| OneTimeUse.ReuseExact | internal/services/auth_service.go:1976-2030 | after a consumption the next committing presentation succeeds exactly when it is within the leeway, a flush has not been followed by a presentation, and a purge ran after the expiry |
| OneTimeUse.LeewayReuse | internal/jwt/jwt.go:237-242 | a run in which all three hold |
| OneTimeUse.CodeUsedOnce | internal/services/totp_service.go:279-298 | Validate and ViewRecoveryCodes together accept a code at most once per time step, given a replay TTL that covers its validity |
| OneTimeUse.ShortTTLReplays | internal/services/totp_service.go:34-37 | with a shorter replay TTL the code of time step k is accepted at the first and at the last moment of its validity, for every generator, user and secret |
| OneTimeUse.OneTimeExact | internal/services/totp_service.go:26-37 | one-time use holds exactly when the replay TTL is at least (2k+1)p-1 units, and so for the configured 30 s, 1 step and 120 s |
| OneTimeUse.OneTimeService.Consume | internal/services/auth_service.go:1976-2030 | accepts exactly a token both guards call fresh, and leaves both guards as specified |
| OneTimeUse.OneTimeService.AcceptCode | internal/services/totp_service.go:568-575 | accepts exactly a matching code that wins the replay key |
| JwtRotation.NewConfiguredManager | internal/jwt/v1.go:50-77 | a manager is built exactly for HS256, a valid current key, and no previous key or a complete and distinct one last used in the past; it holds just those keys and retires the previous one KeyDrain after that use |
| JwtRotation.ChooseAudience | internal/jwt/v1.go:101-107 | the loop adds the second audience exactly for a chat permission |
| JwtRotation.CheckAudience | internal/jwt/v1.go:185-210 | the flag loop accepts exactly one or two distinct known audiences with the required ones among them |
| JwtRotation.ValidateAccess | internal/jwt/v1.go:127-212 | the checks in order accept exactly the declaratively valid claims |
| JwtRotation.IssuedLifetime | internal/jwt/jwt.go:179-194 | rounding keeps issued lifetimes within 900 s, and positive for a TTL of at least one second |
| JwtRotation.AcceptanceWindow | internal/jwt/v1.go:93-184 | an issued token is accepted exactly from skew before its issue second to skew after its expiry second while its key is not retired |
| JwtRotation.RotationInvisible | internal/jwt/v1.go:66-76 | a token signed by the last recorded issuance is accepted after rotation exactly when it was acceptable before |
| JwtRotation.RetiredKeyIsDead | internal/jwt/jwt.go:204-234 | from the deadline on no token of any kind signed with the previous key verifies |
| JwtRotation.DrainIsTight | internal/jwt/v1.go:22-24 | the last possible token is still accepted one nanosecond before the deadline |
| JwtRotation.IssuedIsUsable | internal/jwt/v1.go:175-184 | an issued token is acceptable at some moment exactly when rounding leaves it a positive lifetime |
| JwtRotation.SubSecondTokenIsDead | internal/jwt/v1.go:93-109 | a token whose issue and expiry round to one second is never accepted by any manager, and this takes a TTL below a second |
| JwtRotation.SubSecondHappens | internal/jwt/jwt.go:179-194 | every TTL below a second rounds away for tokens issued at the start of any second |

## Left out

- HTTP handlers, routes, middleware wiring, DTOs, configuration loading, metrics and tracing: no invariant of their own.
- HMAC, SHA-256, AES-GCM, bcrypt, base64, JSON and the JWT, OTP and WebAuthn libraries: abstract functions or well-formedness flags.
- SMTP, CAPTCHA, breach lookup, OAuth exchange, webhooks, geolocation and User-Agent parsing: clients of other systems.
- 64-bit wrap-around of sequences, counters and versions: integers are unbounded.
- Autoincrement row ids, `lastError` and creation times of outbox rows, device metadata of sessions and tokens: nothing modelled reads them.
- Legacy paths: refresh rows without a session, sequential credential change, the non-durable audit buffer, non-strict JWT managers, stores without owner compare.
- The self-revoke of an expired token in Refresh: no event is admitted there, so the operation rolls it back; the model goes straight to the rollback.
- The `sid` and `jti` deny lists of the volatile store: they can only add refusals to Check, where they are one flag.
- Dispatching after a committed operation: best effort, and covered by the interleavings of the pipeline.
- Outages in the middle of an operation other than a failing COMMIT, an abort at any statement, and a store flush.
- TOTP recovery codes, brute-force counters and the rotation lock: separate guards of the same kind.
- Clock readings inside one request are one value in `OneTimeUse`, `TtlStore` and `Authority`; token families read the clock at each statement.
- TtlStore.InMemoryStore.DeleteIfOwner: its boolean ignores expiry as the source does, and is not part of the refinement of the plain map.
- JwtRotation.ValidateAccess: the checks of raw JSON member names, duplicates and number syntax are the flag `wellFormed` of a token; blank tenants are those of spaces, tabs and line ends.
- OneTimeUse.OneTimeService.AcceptCode: the replay key holds the code itself, where the source hashes it.
- AuditRepository.Repository.Dispatch: database errors inside Claim and FailClaim are not modelled; other workers appear in it only through the rows they lock, and their transactions between its Claim and Deliver only in the run theorems.
