# authgate: a verified model of its grant store and policy code

authgate is an OpenID Connect provider written in Go on top of PostgreSQL. This project models the parts of it
that decide who keeps a session and who loses one, and proves what those parts promise over every input and every
run. All statements are checked by the Dafny verifier (`dafny verify dfyconfig.toml`).

## How the model is laid out

The grant store is a database-backed state machine.

- `GrantTables` holds the tables and one function per SQL statement. `GrantSteps` composes them into transactions:
  redeeming, replaying, revoking, asking for deletion, recovering, disabling, wiping, cleaning.
- `GrantMachine` runs any number of those transactions in any order under a clock that never goes back. Cleanup
  steps delete any subset of the rows that match their condition, so batches and interleavings are covered.
  A `World` also remembers what a run must be asked about: every identifier drawn, the grant each family was opened
  with, and the log of every refresh token ever issued.
- `GrantInvariants` proves what every step keeps; `GrantFinality`, `GrantChildren`, `GrantCleanup` and
  `GrantAccounts` derive the promises. `GrantBounds` shows where they end: the timing assumption is exact, and reuse is
  detected only while the reused row is kept. `GrantVerdicts` says exactly what presentations, revocations and deletion
  requests do, in terms of what a run has recorded rather than of the checks the code makes.
- `GrantStorage` is the storage layer in its imperative form: an object with the tables as fields, each method
  proved to do what the transaction function says, up to a whole cleanup pass with stages that may fail. `Batches` is
  the batched delete.
- `FamilyLock` is the interleaved system: rotations, revocations and deletion requests split into their statements,
  with family lock, row locks and snapshots, and logins, recoveries, wipes and cleanup happening in between.
  `FamilyLockRuns` proves that every such interleaving is a run of the atomic machine, in the order of time, with the same
  answers and the same database, as long as its deletion requests commit calmly; so the theorems about runs hold of
  those interleavings. `FamilyShadow`, `FamilyBooks`, `FamilyTransactions` and `FamilySurroundings` carry that proof: a
  shadow run is kept beside the system, in which a rotation takes effect when it reads the clock.
- `FamilyTidy` and `FamilyKin` prove what every interleaving keeps, calm or not, without a shadow run. On them rest
  `FamilyFinality`, what a deletion request achieves, and `DeletionExact`, exactly when it is final. `DeletionRace` shows
  what it can miss, on the rows of `Witness`.
- `AuthCodes` and `DeviceCodes` are the other two grants, each with its storage object and its own runs; `AuthAnswers` and
  `DeviceAnswers` say exactly what each request is answered, from the operations on record alone.
- `DomainName` and `ClientAccess` are the DNS-name scanner and the client access policy; `ClientEntries` says which
  spellings of an entry are accepted and what a policy decides in terms of the entries as written.
- `CimdTtl` and `CimdFetcher` are the cache lifetime arithmetic, the document cache and the failure quota;
  `CacheHeaders` says what a header means as it is written, `FetchAnswers` what every call is answered.
- `BundleJson` is the structural check of a signing-key bundle.

### The argument behind finality

A replay inside the reuse grace is let through only if nothing in the family was revoked on purpose, and the proof of
such a revocation is a row that cleanup may delete. The invariant that closes the gap (`HeirsOk`) says: while a
redeemed row is in grace, its family still holds an unredeemed row that is neither created nor revoked much earlier,
hence out of reach of both retention periods. If that row is live the family was never ended; if it is revoked the
grace is closed. So a family that has lost its last live row never gets another token (`EndedForever`), and
tombstones, deletion requests and cleanup follow from that one statement.

### Assumptions

- Random identifiers and tokens are fresh and hashes are injective. The client registry, the grace and the refresh
  lifetime are fixed during a run, and cleanup uses the same lifetime as storage.
- Transactions are all-or-nothing. Each takes effect at one instant `at`. A clock reading made under the lock is that
  instant. A reading made before the transaction (issuance, revocation, deletion request) may be older by at most
  `lag`. `Sound` bounds that: grace between 0 and 60 seconds as internal/config/config.go:176 demands, and lag plus
  grace at most 7 days and at most the refresh lifetime plus 24 hours. `GrantBounds.LagBoundIsExact` shows that
  deletion is final exactly when this holds.
- In the interleaved system no transaction stays open longer than `lag`, and `Prompt` asks for twice the lag, since a
  cleanup may fall between the clock reading of a rotation and its queries. Statements see what is committed when they
  start, wait for rows another transaction has locked, and then go on with the rows as they have become.
- The verdicts of the resource policy and of the access policy are part of the presented request. The account state
  check is configured.

### What does not hold, and exactly when it does

- A comment on the revoked-token retention says that tombstones catch a replay after the row is gone
  (internal/service/cleanup.go:31-34). They do not: `GrantBounds.DeletedRowIsNotDetected` shows one, and
  `GrantCleanup.ReplayIsDetectedExactlyWhenItsRowIsKept` gives the condition.
- Completing an auth request and approving a device code compare the expiry with the login time, not with the
  present, so both can happen after expiry (`AuthCodes.CompletedLate`, `DeviceCodes.ApprovedLate`), exactly when the
  login is known to be older than the expiry. Redemption is never late (`ExpiredIsNeverRedeemed`, `ExpiredIsNeverDone`).
- `DisableUser` writes the status whatever it was, so it also takes an account out of `deleted`
  (`GrantAccounts.DisablingTakesOutOfDeleted`, with the condition in `DeletedUnlessDisabled`).
- `RequestDeletion` takes no family lock. A rotation that is judged before the request takes its snapshot and commits
  while the request waits leaves a live token (`DeletionRace.RotationOutlivesTheRequest`). A request leaves unrevoked
  exactly the rows it has not seen (`DeletionRace.RequestMissesExactly`). If no rotation of the user is being judged at
  its commit, it is final if and only if every row it leaves unrevoked is in a family whose revocation already holds the
  lock, whatever else is open (`DeletionExact.FinalExactlyWhenUnseenAreHeld`, for a refresh lifetime above twice the
  lag). A rotation being judged that is going to issue makes it not final
  (`DeletionExact.JudgedRotationOutlivesTheRequest`).
- A `max-age` whose nanosecond count exceeds 64 bits wraps before it is clamped, so it is not always cut to a day
  (`CimdTtl.FirstMaxAgeThatWraps`, with the condition in `HugeMaxAgeIsCappedExactlyWhen`).

## Model

| member | source | states |
|---|---|---|
| `GrantInvariants.ReachableIsSafe` | internal/storage/refresh_consumption.go:17-95 | every state any run can reach satisfies the invariant: rows carry their family's grant, redemption and revocation times agree, tombstoned or purposely revoked families have no live row, every row in grace has an heir, clients without grace have one live row per family |
| `GrantInvariants.CleaningFades` | internal/service/cleanup.go:29-39 | no row that either token cleanup may delete is a relative of a row still in grace |
| `GrantFinality.GraceNeedsALiveRow` | internal/storage/refresh_grace.go:47-81 | in an invariant state the grace never issues into a family without a live row |
| `GrantFinality.EndedForever` | internal/storage/token_issuance.go:33-72 | over any run, a family without a live row never has one again and nothing is ever issued into it |
| `GrantFinality.TombstonedForever` | internal/storage/refresh_revocation.go:123-151 | from any reachable state on, nothing is issued into a tombstoned family, also after cleanup dropped the tombstone |
| `GrantFinality.TombstoneOutlivesItsFamily` | internal/service/cleanup.go:41-44 | whenever cleanup drops a tombstone every surviving row of its family has expired |
| `GrantFinality.DeletionRequestIsFinal` | internal/storage/user_lifecycle.go:41-100 | after an accepted deletion request nothing is ever issued into a family the user had, whatever follows, including immediate recovery and a replay inside the grace |
| `GrantBounds.LagBoundIsExact` | internal/service/cleanup.go:30-39 | with any usable grace, deletion requests are final in all runs if and only if lag plus grace stays within both retention periods |
| `GrantBounds.LateReplayIsLetThrough` | internal/storage/refresh_grace.go:66-72 | beyond the bound there is a run in which cleanup deletes the only evidence of the deletion request and a replay is served |
| `GrantFinality.RefusalIsHarmlessOrFinal` | internal/storage/refresh_consumption.go:56-86 | a refused presentation changes nothing, or leaves the family of the presented token tombstoned without a live row and touches nothing else |
| `GrantFinality.LiveTokensAreFew` | internal/storage/refresh_consumption.go:54-91 | in every reachable state a tombstoned family has no live token and a family of a client without grace at most one |
| `GrantFinality.RowsAreWriteOnce` | internal/db/storeq/refresh_tokens.sql.go:228-261 | over any run a row keeps everything but used_at and revoked_at, each is written at most once, and a deleted row never comes back |
| `GrantChildren.AtMostThreeChildren` | internal/storage/refresh_grace.go:14-16 | over a whole run at most three tokens are ever issued from one token, counting deleted ones, and no token is logged twice |
| `GrantChildren.RotationRespectsCap` | internal/storage/refresh_grace.go:73-80 | the count of surviving rows that the code checks bounds the count of all tokens ever issued, because cleanup cannot lower it inside the grace |
| `GrantChildren.ReplaysStayInTheFirstWindow` | internal/storage/refresh_grace.go:51-59 | two tokens from one parent mean the client has the grace and the later one was decided within the grace of the earlier; so one per redemption otherwise, and the window never slides |
| `GrantChildren.GrantNeverWidens` | internal/storage/refresh_consumption.go:37-45 | along chains of any length every token carries the grant of the first, and no redemption asked for scopes outside it |
| `GrantCleanup.CleanupIsInvisible` | internal/service/cleanup.go:133-150 | for every reachable store, whichever old rows and stale tombstones are deleted, every later presentation issues exactly when it would have, from the same parent |
| `GrantCleanup.ReplayIsDetectedExactlyWhenItsRowIsKept` | internal/service/cleanup.go:30-34 | after cleaning, a replay ends its family exactly when it would have before and its own row was spared |
| `GrantBounds.DeletedRowIsNotDetected` | internal/storage/refresh_consumption.go:20-23 | a reachable store in which a replay a week later ends the family, but once cleanup has deleted the replayed row changes nothing and leaves the issued token live |
| `GrantCleanup.VictimsAreRefused` | internal/db/storeq/cleanup.sql.go:155-163 | a row cleanup may delete would be refused anyway |
| `GrantCleanup.EvidenceSurvives` | internal/db/storeq/refresh_tokens.sql.go:153-168 | cleanup does not change whether the family of a row in grace holds a purposely revoked token |
| `GrantAccounts.WipedExactlyAfterThirtyPendingDays` | internal/storage/cleanup_runner.go:149-205 | in any run a user is wiped if and only if the latest change from active to pending deletion was asked for more than 30 days before the cleanup time with the account pending ever since; the wipe removes exactly that user's identities, sessions and tokens |
| `GrantAccounts.AccountsChangeExactly` | internal/storage/user_lifecycle.go:41-113 | everything that can happen to an account's row: scheduled thirty days ahead by a request while active, taken back by a recovery while pending, wiped past the date while pending, disabled at any time, and otherwise untouched |
| `GrantAccounts.PendingHasARequest` | internal/db/storeq/users.sql.go:401-410 | a pending account has one request that made it pending from active, with its date, and has been pending since |
| `GrantAccounts.DeletedUnlessDisabled` | internal/storage/user_lifecycle.go:102-113 | a wiped account is `deleted` after a run if and only if nobody disabled it, and never becomes active or pending again |
| `GrantAccounts.DisablingTakesOutOfDeleted` | internal/db/storeq/users.sql.go:479-483 | a run in which an account is wiped and then disabled, and is `deleted` no longer |
| `GrantVerdicts.IssuedExactlyWhen` | internal/storage/refresh_consumption.go:17-95 | in every reachable store a presentation issues if and only if the row with this hash is for the presenting client and subject, the scopes lie in those its family was opened with, it has not expired, the user is active, both policies agree, and it is live or was redeemed within the grace by an eligible client while the family still has a live row and fewer than three tokens were ever issued from it |
| `GrantVerdicts.VerdictExactly` | internal/storage/refresh_consumption.go:37-86 | the verdict on every presentation of a token on file: redeemed, replayed, exhausted or ended exactly under the stated conditions, and otherwise refused for the first thing wrong with it |
| `GrantVerdicts.IssuingDoes` | internal/storage/token_issuance.go:44-76 | an issue marks a live parent redeemed and revoked at that instant, adds one live row with the new hash, the parent's family and grant and its own lifetime, and changes nothing else |
| `GrantVerdicts.RefusingDoes` | internal/storage/refresh_consumption.go:62-86 | a presentation that issues nothing ends the presented token's family, with a tombstone for its owner, exactly if it was entitled and the token spent outside the grace; otherwise nothing changes |
| `GrantVerdicts.ChildrenAreTheRecord` | internal/storage/refresh_grace.go:73-80 | while a row is in grace its surviving children are exactly the tokens ever issued from it |
| `GrantVerdicts.LookupFindsExactly` | internal/storage/refresh_revocation.go:90-106 | a lookup finds a row if and only if the client's own row carries the hash, or none does and the client's own row has the id |
| `GrantVerdicts.RevocationDoes` | internal/storage/refresh_revocation.go:55-88 | a revocation revokes every unrevoked row of the family of the row it names and tombstones it for its owner, and otherwise changes nothing |
| `GrantVerdicts.DeletionRequestDoes` | internal/storage/user_lifecycle.go:41-85 | accepted exactly for active and pending accounts: an active one is scheduled thirty days ahead, a pending one keeps its date, every unrevoked token of the user is revoked; otherwise nothing changes |
| `GrantStorage.Storage.ReuseGraceDecision` | internal/storage/refresh_grace.go:47-81 | the sequence of early returns lets a replay through exactly when the row was redeemed in one write within the grace, its client is eligible and nobody ended its family, with fewer than three children; and refuses without reuse detection exactly when there are three or more |
| `GrantStorage.Storage.ConsumeRefreshToken` | internal/storage/refresh_consumption.go:17-95 | answers the atomic verdict and leaves exactly the tables of that verdict before the child is inserted |
| `GrantStorage.Storage.ScopesWithin` | internal/storage/refresh_consumption.go:41-45 | accepts exactly the requested scopes that all lie in the granted ones |
| `GrantStorage.Storage.CreateAccessAndRefreshTokens` | internal/storage/token_issuance.go:23-100 | the refresh grant is one atomic redemption: new tables and answer are those of the transaction function |
| `GrantStorage.Storage.LookupRefreshGrant` | internal/storage/refresh_revocation.go:90-106 | finds exactly the client's own row with this hash, else the client's own row with this id |
| `GrantStorage.Storage.RevokeRefreshGrant` | internal/storage/refresh_revocation.go:55-88 | does what the revocation function says, reports the owner of the named row if there is one, and reports a change exactly when a row changed |
| `GrantStorage.Storage.AskDeletion` | internal/storage/user_lifecycle.go:41-85 | active and pending accounts are accepted and all their tokens revoked; closed or missing ones are refused and nothing changes |
| `GrantStorage.Storage.DeleteUser` | internal/storage/cleanup_runner.go:149-205 | wipes a user that is still due, all or nothing |
| `GrantStorage.Storage.RunAllLocked` | internal/service/cleanup.go:133-198 | a whole pass, with stages that may each fail: a session stays if it is neither revoked nor expired, an auth request or device code if it expired no more than an hour ago, a token if it expired no more than a day and was revoked no more than seven days ago, a tombstone for the refresh lifetime and seven days, each unless its user is wiped; a stage without error leaves none of the others; wiped are exactly the pending users past their date that do not fail; and the pass reports success exactly when nothing failed |
| `GrantStorage.PassSweeps` | internal/db/storeq/cleanup.sql.go:95-170 | the same for every set of rows a pass may have deleted, table by table |
| `GrantStorage.PassIsInvisible` | internal/service/cleanup.go:133-198 | whatever a pass got to delete, users included, every later presentation issues exactly when it would have, from the same parent |
| `Batches.DeleteInBatches` | internal/storage/cleanup_runner.go:65-77 | for every table and batch size the loop ends with exactly the rows of one unbounded delete, whichever rows each batch picks; after an error only matching rows are gone; either way it returns exactly the number removed, and reports success exactly when there was no error |
| `FamilyLockRuns.InterleavingsAreRuns` | internal/storage/refresh_consumption.go:19-36 | every interleaving of rotations, revocations and calm deletion requests with each other and with logins, recoveries, wipes and cleanup is a run of the atomic machine in time order: same answers, same-family transactions in lock order, and the same database whenever no rotation is between clock reading and commit |
| `FamilyTransactions.FoundAlike` | internal/storage/refresh_consumption.go:19-36 | what a transaction finds in the database, before or under the lock, is what its atomic counterpart finds |
| `FamilyShadow.ShadowIsSteady` | internal/storage/refresh_consumption.go:46-61 | at the clock reading the verdict is already determined: by the row, or by evidence that cannot be cleaned up while the transaction is open |
| `FamilyShadow.SteadyThroughCleanup` | internal/storage/refresh_grace.go:60-80 | cleanup between the queries of a rotation takes away nothing its verdict depends on |
| `FamilyShadow.SettledIsTheVerdict` | internal/storage/refresh_grace.go:47-81 | whichever queries were asked before the code stops asking, the verdict is the one of the clock reading |
| `FamilyTransactions.CommitRotationKeeps` | internal/storage/token_issuance.go:44-76 | committing what was read under the lock keeps the system and its atomic run together, whatever other families did meanwhile |
| `FamilyTransactions.CommitRevocationKeeps` | internal/storage/refresh_revocation.go:62-86 | a revocation ends the family it looked up, also if cleanup deleted the named row before it got the lock |
| `FamilyTidy.RunIsTidy` | internal/storage/refresh_consumption.go:19-61 | in every interleaving, calm or not: each family lock has one open holder, the row a rotation has read and locked is unchanged until it commits, and identifiers stay unique |
| `FamilyKin.InterleavingsKeepKin` | internal/storage/refresh_consumption.go:62-91 | in every interleaving, calm or not: a family has one owner, a tombstoned one has no unrevoked row, a row in grace has an heir that cleanup leaves alone, and at most one deletion request holds a user |
| `FamilyFinality.ShutForever` | internal/storage/refresh_grace.go:47-81 | over any interleaving, a family whose rows are all revoked with no replay possible, or whose revocation holds the lock, never yields its owner another token, and a family without a row of the user never yields the user one |
| `FamilyFinality.RequestIsFinal` | internal/storage/user_lifecycle.go:41-100 | in every interleaving, whatever came before and whatever follows, a deletion request is final if at its commit no rotation of the user is being judged and every unrevoked row it has not seen is in a family whose revocation holds the lock |
| `FamilyFinality.CalmRequestIsFinal` | internal/storage/user_lifecycle.go:41-100 | in every interleaving, once a deletion request has committed calmly no rotation of that user finishing later is given a token in a family that existed then, also if other requests are not calm |
| `DeletionExact.FinalExactlyWhenUnseenAreHeld` | internal/storage/user_lifecycle.go:41-100 | in every interleaving, with any other transactions open, a deletion request at whose commit no rotation of the user is being judged is final if and only if every unrevoked row it has not seen is in a family whose revocation holds the lock |
| `DeletionExact.JudgedRotationOutlivesTheRequest` | internal/storage/user_lifecycle.go:41-100 | a rotation being judged at that commit that would issue after its remaining queries issues after the request, so the request is not final |
| `DeletionExact.LiveRowIsRedeemed` | internal/storage/refresh_consumption.go:17-95 | whatever else is open, an unexpired live row of an active user in an untombstoned family nobody holds is redeemed by some presentation |
| `DeletionRace.RequestMissesExactly` | internal/db/storeq/users.sql.go:443-447 | a committed request leaves unrevoked exactly the rows that were not in its snapshot |
| `DeletionRace.RotationOutlivesTheRequest` | internal/storage/user_lifecycle.go:41-85 | an interleaving in which a request is accepted, misses the token a rotation commits meanwhile, and that token is redeemed after recovery |
| `AuthCodes.RequestStorage.ConsumeAuthCode` | internal/storage/auth_code.go:17-37 | succeeds exactly for a non-empty code of a completed, unexpired request of that client, and deletes that row |
| `AuthCodes.RequestStorage.CreateAccessToken` | internal/storage/token_issuance.go:14-21 | issues without a refresh token exactly when the code is redeemable, and redeems it |
| `AuthCodes.RequestStorage.CreateAccessAndRefreshTokens` | internal/storage/token_issuance.go:23-79 | a failing insert rolls the redemption back |
| `AuthCodes.OneExchangePerRequest` | internal/storage/token_issuance.go:14-79 | in every run, across both issuing methods, an auth request yields at most one issuance |
| `AuthCodes.ExchangeIsEarned` | internal/db/storeq/auth_requests.sql.go:16-23 | every issuance goes back to a creation for that client less than ten minutes ago, a completion by the subject with a login before expiry, and the saving of that very code |
| `AuthAnswers.ExchangedExactlyWhen` | internal/storage/auth_code.go:17-37 | in every run an exchange yields tokens if and only if the request was created for that client less than ten minutes ago, some login from before its expiry completed it, this non-empty code is the last one saved for it, it was neither redeemed nor deleted since, and the insert does not fail; the subject is that of the last completing login |
| `AuthAnswers.UnknownIsNeverExchanged` | internal/storage/auth_code.go:17-37 | a request nobody created is never exchanged |
| `AuthCodes.FailedInsertsLeaveNoTrace` | internal/storage/token_issuance.go:33-79 | whatever the run, striking out all exchanges whose insert failed leaves a run with the same requests and the same issuances |
| `AuthCodes.RequestStorage.CompleteAuthRequest` | internal/storage/auth_requests.go:179-195 | completes exactly the request whose expiry is after the login time, or after now if that is unknown |
| `AuthCodes.CompletedLateExactlyWhen` | internal/db/storeq/users.sql.go:14-18 | an expired request is completed exactly when the login is known to have been before the expiry |
| `AuthCodes.CompletedLate` | internal/db/storeq/users.sql.go:14-18 | a run in which a request is completed a minute after it expired |
| `AuthCodes.ExpiredIsNeverRedeemed` | internal/db/storeq/auth_requests.sql.go:16-23 | late or not, once expired a request is never redeemed in any run |
| `DeviceCodes.DeviceStorage.GetDeviceAuthorizationState` | internal/storage/storage_oidc_device.go:133-213 | one poll: answer and new row are those of the poll function, a refused account rolls back |
| `DeviceCodes.DeviceStorage.ApproveDeviceCode` | internal/storage/storage_oidc_device.go:245-258 | approves exactly the pending row with that user code whose expiry is after the login time, and reports whether there was one |
| `DeviceCodes.StepMovesForward` | internal/db/storeq/device_codes.sql.go:16-40 | each operation moves a code only pending to approved or denied, or approved to consumed |
| `DeviceCodes.CodesMoveForward` | internal/db/storeq/device_codes.sql.go:16-40 | over any run phases only move forward, what approval bound never changes, and a deleted code never comes back |
| `DeviceCodes.DoneAtMostOnce` | internal/storage/storage_oidc_device.go:294-339 | in every run a code is answered Done at most once |
| `DeviceCodes.DoneIsEarned` | internal/storage/storage_oidc_device.go:185-213 | Done comes not after expiry, for a subject active in that transaction, with exactly the subject and login time that some approval of the then pending code bound |
| `DeviceAnswers.AnswersExactly` | internal/storage/storage_oidc_device.go:133-213 | in every run, up to its expiry a kept code is answered to its client: denied if and only if the first decision denied it; consumed if and only if a Done is on record; Done with the approval's subject and login if and only if the first decision approved it, no Done is on record and the subject is active with access, refused for the account if not; and before any decision pending, or slow down if and only if an earlier poll is less than an interval ago |
| `DeviceAnswers.ExpiredAnswersExactly` | internal/storage/storage_oidc_device.go:159-213 | after its expiry a kept code is answered expired, except for the cadence and account refusals, given under the same conditions as before |
| `DeviceAnswers.StrangersLearnNothing` | internal/storage/storage_oidc_device.go:133-158 | a code is not found if and only if it has been deleted or the client is not the one it was given to |
| `DeviceAnswers.RowsAreRecords` | internal/db/storeq/device_codes.sql.go:16-40 | in every run the row of a kept code says exactly who handed it out, who decided first, whether Done was answered, and while undecided when it was last polled |
| `DeviceCodes.RefusedPollsLeaveNoTrace` | internal/storage/storage_oidc_device.go:197-210 | whatever the run, striking out all polls refused for their account leaves a run with the same codes, Done answers and pending polls |
| `DeviceCodes.ApprovedLateExactlyWhen` | internal/db/storeq/device_codes.sql.go:16-20 | an expired code is approved exactly when the login is known to have been before the expiry |
| `DeviceCodes.ApprovedLate` | internal/storage/storage_oidc_device.go:245-258 | a run in which a code is approved a minute after it expired |
| `DeviceCodes.ExpiredIsNeverDone` | internal/storage/storage_oidc_device.go:294-301 | late or not, once expired a code is never answered Done in any run |
| `DeviceCodes.PendingPollsAreSpaced` | internal/storage/storage_oidc_device.go:159-184 | in every run a pending poll is answered slow_down exactly when the previous one was less than an interval ago, and a stretch of length L holds at most L / interval + 1 others (section 3.5 of RFC 8628) |
| `DomainName.Valid` | internal/domainname/domainname.go:14-42 | the one-pass scanner accepts exactly the strings whose dot-separated labels are DNS labels, at most 253 long |
| `DomainName.DotSuffixMeansSubdomain` | internal/clientaccess/clientaccess.go:176-186 | ending in a dot and the base is being a proper subdomain by whole labels, for all strings, and never holds of the base itself |
| `DomainName.JoinLabels` | internal/domainname/domainname.go:14-42 | joining the labels of a string gives the string back |
| `ClientAccess.FoldCase` | internal/clientaccess/clientaccess.go:264-277 | the copy-on-first-capital loop lower-cases exactly the ASCII letters |
| `ClientAccess.New` | internal/clientaccess/clientaccess.go:73-116 | succeeds exactly when every entry normalizes and something is allowed, and holds exactly the normalized entries |
| `ClientEntries.LowerTable` | internal/clientaccess/clientaccess.go:264-277 | folding maps the twenty-six capitals to their small letters and leaves every other character alone |
| `ClientEntries.SpaceTable` | internal/clientaccess/clientaccess.go:211-211 | white space is what Unicode calls so, the twenty-five characters listed |
| `ClientEntries.TrimmedExactly` | internal/clientaccess/clientaccess.go:210-242 | trimming takes off exactly the white space at both ends |
| `ClientEntries.DomainEntriesExactly` | internal/clientaccess/clientaccess.go:210-242 | an entry is accepted if and only if it is, up to case, white space around it and a leading at sign, a DNS name of at least two labels, or a star above one where wildcards are allowed; stored is the lower-case name, for a star with a leading dot |
| `ClientEntries.EmailEntriesExactly` | internal/clientaccess/clientaccess.go:244-262 | an address entry is accepted if and only if it is, up to case and white space around it, one local part without blanks, an at sign and a DNS name of at least two labels; stored is that address in lower case |
| `ClientEntries.BuildableExactly` | internal/clientaccess/clientaccess.go:73-116 | a policy can be built if and only if every entry is one of these, no hosted domain has a star, and something is allowed |
| `ClientEntries.EvaluatesExactly` | internal/clientaccess/clientaccess.go:144-188 | what a built policy decides in terms of its entries as written: a star admits exactly the verified addresses whose domain lies strictly below its name, a plain entry exactly those in it |
| `ClientAccess.EvaluateMeansVerdict` | internal/clientaccess/clientaccess.go:144-188 | evaluating a built policy gives the set-based meaning of its entries, a wildcard covering exactly the proper subdomains |
| `ClientAccess.VerdictIsMonotone` | internal/clientaccess/clientaccess.go:144-188 | extra allow entries never refuse, extra deny entries never admit |
| `ClientAccess.OrderRepetitionAndCaseDoNotMatter` | internal/clientaccess/clientaccess.go:73-116 | reordering, repeating or changing ASCII case of entries, address or hosted domain never changes the verdict |
| `ClientAccess.UnverifiedMeansVerifyingHelps` | internal/clientaccess/clientaccess.go:157-165 | email_unverified is given exactly when the account is refused and verifying the address would admit it |
| `CimdTtl.CacheTtl` | internal/adapter/mcp/cimd_cache.go:63-72 | for every header string the lifetime lies between five seconds and a day |
| `CimdTtl.ParseCacheControl` | internal/adapter/mcp/cimd_cache.go:77-97 | the loop returns what the first directive that states a lifetime says |
| `CacheHeaders.HeaderMeans` | internal/adapter/mcp/cimd_cache.go:63-97 | of the directives between the commas the first that states a lifetime counts, the fallback if none does, kept between five seconds and a day |
| `CacheHeaders.StatedExactly` | internal/adapter/mcp/cimd_cache.go:80-94 | a directive states a lifetime if and only if it is, up to case and white space, no-store, no-cache or a max-age; the first two state zero |
| `CacheHeaders.MaxAgeOf` | internal/adapter/mcp/cimd_cache.go:87-94 | a max-age of digits after an optional sign is that many seconds in wrapped 64-bit nanoseconds if positive and in range; a negative, zero, huge or malformed one is zero |
| `CacheHeaders.LeadingZero` | internal/adapter/mcp/cimd_cache.go:87-94 | leading zeros do not change the number read, so with the decimal round trip every string of digits is read as the number it writes |
| `CimdTtl.MaxAgeIsRead` | internal/adapter/mcp/cimd_cache.go:87-94 | a decimal max-age is read back exactly and multiplied into 64 bits |
| `CimdTtl.ModestMaxAgeIsHonoured` | internal/adapter/mcp/cimd_cache.go:63-97 | up to 9223372036 seconds the stated age is used, clamped to the bounds |
| `CimdTtl.HugeMaxAgeIsCappedExactlyWhen` | internal/adapter/mcp/cimd_cache.go:87-94 | a max-age of at least a day is cut to a day if and only if it fits 64 bits and the low 64 bits of its nanosecond count are a positive number of at least a day |
| `CimdTtl.FirstMaxAgeThatWraps` | internal/adapter/mcp/cimd_cache.go:93-93 | one second more than fits is cached for five seconds |
| `CimdFetcher.PruneInPlace` | internal/adapter/mcp/cimd_ratelimit.go:70-79 | filtering a buffer into its own front keeps exactly the newer timestamps in order and nothing else changes behind them |
| `CimdFetcher.Fetcher.FetchClient` | internal/adapter/mcp/cimd.go:170-221 | cache, quota and request in order: answer and new state are those of the call function, the lifetime coming from the response header |
| `FetchAnswers.AnswersExactly` | internal/adapter/mcp/cimd.go:170-221 | in every run: an inadmissible call is refused; one made while the result of an earlier outgoing call for its client lasts gets exactly that result; otherwise one whose fifth last failure is less than five minutes ago is turned away, and any other gets what comes back |
| `FetchAnswers.ResultsLastAsStated` | internal/adapter/mcp/cimd.go:200-214 | a document lasts for the lifetime its own header states, a max-age of n seconds meaning n seconds between five and a day, no header five minutes; an error lasts thirty seconds |
| `CimdFetcher.PrunedListIsTheHistory` | internal/adapter/mcp/cimd_ratelimit.go:46-68 | in every run the quota decides as if every failure ever had been kept |
| `CimdFetcher.FailuresAreRare` | internal/adapter/mcp/cimd.go:184-214 | in every run failed requests of one client are 30 seconds apart and no five-minute window holds more than five |
| `CimdFetcher.LiveEntryIsServed` | internal/adapter/mcp/cimd_cache.go:38-48 | until it expires an entry answers every lookup of its client, whatever else is resolved meanwhile |
| `CimdFetcher.DocumentIsServedWithinBounds` | internal/adapter/mcp/cimd.go:200-214 | a fetched document answers every lookup for five seconds and none after a day, for every header |
| `BundleJson.ValidBundleJSON` | internal/signing/bundle.go:147-155 | accepts a token stream exactly when it is the print of one JSON tree without null or repeated names, at most 32 deep, with nothing after it |
| `BundleJson.Decoder.BundleJSONValue` | internal/signing/bundle.go:157-199 | terminates, accepts exactly when the grammar does, and then consumes exactly the value's tokens |
| `BundleJson.ValueIsAPrint` | internal/signing/bundle.go:157-199 | every accepted stretch of tokens is the print of an acceptable tree |
| `BundleJson.PrintIsAccepted` | internal/signing/bundle.go:157-199 | the print of every acceptable tree is accepted wherever it stands |

## Left out

- HTTP handlers, cookies, pages, CORS, logging and metadata: input, output and presentation.
- JWT signing and verification, password hashing, encryption of personal data: foreign code; hashes are injective here.
- The protocol library, upstream login, outbound connection rules, YAML and URL parsing: not part of this model.
- Audit rows and their anonymization: they have no effect on grants; a failing one is the `fails` of `DeleteUser`.
- `TokenRequestByRefreshToken`: the provider's check before issuance writes nothing and is repeated at issuance.
- Failures of single SQL statements inside a rotation or revocation: the transaction rolls back and nothing changes.
- `SetUserStatus` with arbitrary values, tokens from before parent ids existed, `RevokeRefreshTokenByHash`, test-only inserts.
- Which of several reasons is reported for an entry a policy refuses: the wording of configuration errors.
- Configuration and registry loading, resource policy, login decisions: mostly single-branch checks.
- Eviction from the bounded caches and collapsing of concurrent fetches: library behaviour; capacity is not reached and fetches are sequential.
- Rounding of timestamps to microseconds by the database: times are exact nanoseconds here.
- A repeated deletion request on an account already pending is taken to hold the account's row as the first one does.
- Writes of a transaction appear at its commit. Waiting of one rotation's row lock for a deletion request that has already updated the row is not modelled: more interleavings are allowed than the database allows.
- A rotation reads the clock and the account's row in one step here; in the program the clock is read first and the account right after it.
- FamilyLockRuns.InterleavingsAreRuns: speaks of interleavings in which deletion requests commit calmly; a request that does not is no atomic transaction, and what holds with such requests is in `FamilyKin` and `FamilyFinality`.
- DeletionExact.FinalExactlyWhenUnseenAreHeld: asks that no rotation of the user is being judged and that the refresh lifetime exceeds twice the lag; of a rotation being judged only the half in `JudgedRotationOutlivesTheRequest` is stated, since whether it ends its family may depend on which old rows cleanup deletes before its next query.
- GrantStorage.Storage.RunAllLocked: the two stages that anonymize audit rows (internal/service/cleanup.go:203-215) are left out; they touch no grant, and their errors would only add to the failures reported.
- DeletionRace.RequestMissesExactly: speaks of committed rows; a rotation being judged at that moment adds its own.
- Lower-casing in Cache-Control is ASCII; no other character folds into a directive that is looked for.
- The JSON decoder itself: the model starts from its token stream, which ends cleanly or in an error.
