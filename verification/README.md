# Pasion, verified

Pasion is an OAuth 2.0 and OpenID Connect server for Matrix. This project models its most
intricate parts in Dafny 4.11 and proves what they promise. `dafny verify dfyconfig.toml`
covers everything.

The parts, and the main result of each:

- **Configuration sync** (`Sync*.dfy`). `config_sync` is written out loop by loop (`SyncRun`) and
  proved to carry out a plan of single statements, each committed on its own, fixed by the tables
  it starts from. `SyncTheorems` gives the exact conditions for convergence, pruning and
  idempotence. `SyncSteps` and `SyncLock` take the run apart into those statements and let any
  number of runs, pool users and failures interleave: the advisory lock makes the history serial.
  `SyncHeal` decides when runs that broke off leave no trace once one completes: always without
  prune, and with prune exactly if no stale row beyond the first page can come into sight.
  `SyncSchedules` and `SyncSafety` carry that, both ways, to every schedule; `SyncManual` shows that
  no schedule touches a manually managed provider.
- **Provisioning** (`Provisioning*.dfy`, `Homeserver`, `Devices`). Jobs, admin changes and profile
  edits interleave under a per-user lock that not all of them take. The homeserver holds the
  committed flag exactly if the last commit since the last push was read wrote the flag that was
  pushed, or there was none and the push was no revocation. Every change that queued a job is
  served; once a user has no job and no process left, the flag is mirrored exactly if the last push
  was neither an overtaken grant, nor a lost revocation, nor an overtaken job. `ProvisioningRuns`
  has a schedule for each.
- **Tokens** (`Tokens`, `Base62`, `Base64`, `RefreshTokens`, `RefreshRaces`). Generator and checker agree; the
  checksum encoding's collisions are characterised. Refresh requests interleave read by read: a
  session has one live token pair more than it had exchanges that committed too late, so exactly
  one if and only if no two overlapped.
- **Translation key scan** (`Paths`, `Templates`, `KeyScan`). The recursive visitors find every
  call at every depth: recorded keys and tree paths to translation calls match one to one.
- **Keys** (`Keys`, `Constraints`, `Keystore`). The scored filter does not depend on the order of
  the constraint set; racing look-ups all get the same signer.
- **Parsers and printers** (`Text`, `Scope`, `ResponseType`), **policy input** (`PolicyContext`),
  **shutdown** (`Lifecycle`), **one-time passwords** (`Totp`).

State machines are total functions `Step(state, event)` in which an event that is not enabled
changes nothing, so theorems over `seq<Event>` speak of every schedule. Clocks, nonces, random
bytes, CRC-32, HMAC, key material and decoding of secrets are parameters. A string stands for
Unicode scalar values, except in `Tokens`, `Base62` and `Base64`, where a character stands for a byte.

## Where the code and its words differ

The code is followed; the lemma named states what it does.

- A provider that is wanted again is logged as being enabled, but the upsert keeps `disabled_at`:
  without prune it stays disabled (`SyncTheorems.SoftDeletedStaysDisabled`, `Convergence`).
- Sync looks at the first 1000 config-sourced providers only, so with prune a second run can still
  find work (`SyncTheorems.Idempotence` has the exact condition, `SecondPruneFindsWork` an input),
  and a run that breaks off after deleting can bring further rows into sight of the next, which one
  undisturbed run would have left alone (`SyncHeal.HealsExactly`, `CrowdIsExposed`).
- "A stale admin flag is never pushed over a newer one" holds for jobs and revocations
  (`Provisioning.OnlyGrantsGoBackwards`); the grant pushed after commit is outside the lock
  (`ProvisioningRuns.LateGrantCanWin`), and so are the writers on the command line
  (`ProvisioningRuns.UnlockedWriterMisleadsJob`). `Provisioning.MirrorAgreesExactly` and
  `ProvisioningRest.RestExactly` have the exact conditions.
- A revocation is pushed before the commit, and the job that would converge is queued by the same
  transaction: if that is lost, the homeserver stays revoked (`ProvisioningRuns.LostRevocationStays`).
- A profile edit reads the user without the lock and writes the admin flag back with the rest of the
  row, so one that overlaps a revocation undoes it (`ProvisioningRuns.EditUndoesRevocation`;
  `Provisioning.RevocationLastsExactly` has the exact condition).
- A refresh token is replaced once, says its state machine; but it is read without a lock and
  consumed by an update that does not look at the state, so two requests that both read it before
  either commits both get a live pair (`RefreshRaces.RaceLeavesTwoLive`).
- Any number of digits can be asked of `totp::verify`; from ten on the 32-bit power overflows
  (`Totp.TenDigitsOverflow`; `Totp.RightExactly` says for which numbers the code is right).
- `filter` on unvalidated keys can select a key that cannot be used
  (`Constraints.RawSelectionCanMislead`); `find_keys` validates first.
- `signer_for_algorithm` says it returns nothing if no key is suitable; it also returns nothing if
  the best key has no identifier (`Keystore.AnswersAgree`), even beside a named one that is as good
  (`Keystore.NamelessKeyHides`). Keys from the configuration always have one
  (`crates/config/src/sections/secrets/key_config.rs`, line 195), so only a key set built by other
  means can meet this.
- The macaroon guard of the token checker can never reject what the rest would accept
  (`Tokens.GuardsAreRedundant`).

## Model

| member | source | states |
|---|---|---|
| SyncTables.PageExists | crates/data/src/storage/pagination.rs:122-150 | a first page of any set of ids exists: ascending, and exactly the ids of lowest rank |
| SyncTables.Database.ListConfig | crates/data/src/pg/upstream_oauth2/provider.rs:657-706 | the listing is one query that fails or returns the first page of config-sourced rows and whether more remain; it changes nothing |
| SyncTables.Database.Execute | crates/data/src/pg/upstream_oauth2/provider.rs:416-654 | one statement takes effect as a whole and is committed, or the connection is broken and nothing changes |
| SyncTables.Database.LookupProvider | crates/backend/src/sync.rs:346-354 | one query that fails or returns the row; it changes nothing |
| SyncTables.Database.Delete | crates/data/src/pg/upstream_oauth2/provider.rs:416-441 | the statements of a delete in order, up to where the connection breaks: what refers to the row can be gone and the row still there |
| SyncTables.Database.DeleteStatic | crates/data/src/pg/oauth2/client.rs:650-722 | likewise for a client and the six tables that refer to it |
| SyncTables.Database.AllStatic | crates/data/src/pg/oauth2/client.rs:620-641 | one query, and a second one if there are static clients; it fails or lists them in whatever order it likes, each once; it changes nothing |
| SyncTables.ListedIsListing | crates/data/src/pg/oauth2/client.rs:620-641 | any proposed order gives a listing of exactly the set, without repeats |
| SyncEffect.RunProviderDelete | crates/data/src/pg/upstream_oauth2/provider.rs:416-441 | the three statements of a delete take the links and then the row, and nothing else |
| SyncEffect.RunClientDelete | crates/data/src/pg/oauth2/client.rs:650-722 | the seven statements of a client delete take everything that belongs to it and then the client, and nothing else |
| SyncEffect.RunDisables | crates/backend/src/sync.rs:226-251 | the disabling writes in closed form: exactly the listed, enabled, unwanted rows are disabled |
| SyncEffect.RunUpserts | crates/backend/src/sync.rs:278-391 | the upserts in closed form: the last enabled entry for an id wins, manual rows are skipped |
| SyncEffect.RunClientUpserts | crates/backend/src/sync.rs:427-461 | the client upserts in closed form: the last entry for an id wins, other columns are kept |
| SyncSettled.Sweep | crates/backend/src/sync.rs:201-264 | what disabling and pruning leave of every row and link; manual ids stay as they were |
| SyncSettled.ClientSweep | crates/backend/src/sync.rs:394-413 | what pruning leaves of every client and session, whatever the order of deletion |
| SyncSettled.ProviderPhase | crates/backend/src/sync.rs:199-392 | every provider row and link after the provider phase, without reference to the order of writes |
| SyncSettled.ClientPhase | crates/backend/src/sync.rs:394-462 | every client and session after the client phase, likewise |
| SyncSettled.PlannedSettles | crates/backend/src/sync.rs:199-462 | the planned writes of a faultless run produce exactly the settled tables |
| SyncRun.DisableUnwanted | crates/backend/src/sync.rs:226-251 | the loop makes the planned disabling writes in order, up to where the connection breaks, and returns the stale ids |
| SyncRun.DeleteAll | crates/backend/src/sync.rs:253-264 | the prune loop makes the statements that delete the stale rows in order, up to where the connection breaks, none in a dry run |
| SyncRun.ClearProviders | crates/backend/src/sync.rs:201-264 | listing, disabling and pruning carry out their plan up to where the connection breaks, also inside one delete |
| SyncRun.UpsertOne | crates/backend/src/sync.rs:346-391 | one entry: look up the row, skip a manual one, refuse a bad scope, else upsert; the look-up can fail too |
| SyncRun.UpsertWanted | crates/backend/src/sync.rs:278-391 | the upsert loop carries out the planned upserts and stops at the first bad secret or scope |
| SyncRun.SyncProviders | crates/backend/src/sync.rs:199-392 | the provider phase carries out its plan or a prefix of it, and reports which |
| SyncRun.DeleteClients | crates/backend/src/sync.rs:403-413 | the client prune loop makes the statements that delete the unnamed static clients in the listed order, none in a dry run |
| SyncRun.UpsertClients | crates/backend/src/sync.rs:427-461 | the client loop carries out its upserts; a client with two key sources is written before it is refused |
| SyncRun.SyncClients | crates/backend/src/sync.rs:394-462 | the client phase carries out its plan or a prefix of it, and reports which |
| SyncRun.ConfigSync | crates/backend/src/sync.rs:172-474 | a run carries out the plan made from the tables it found, or the statements of it before the break if it fails; success settles the tables; a dry run makes two queries, three if there are static clients, changes nothing, and succeeds if and only if they do |
| SyncTheorems.ManualRowsUntouched | crates/backend/src/sync.rs:343-360 | no completed run changes a manual row or makes one |
| SyncTheorems.RemainingRows | crates/backend/src/sync.rs:201-391 | which config-sourced rows are left and which of them are enabled |
| SyncTheorems.Convergence | crates/backend/src/sync.rs:201-391 | the enabled config-sourced rows are the wanted non-manual ids if and only if no wanted row is soft-deleted (unless pruned in sight) and no enabled unwanted row is out of sight |
| SyncTheorems.ReachableWhenSmall | crates/backend/src/sync.rs:201-264 | with at most 1000 rows, convergence holds with prune always, and without it exactly if no wanted row is soft-deleted |
| SyncTheorems.SoftDeletedStaysDisabled | crates/data/src/pg/upstream_oauth2/provider.rs:484-560 | a completed run without prune that does not converge |
| SyncTheorems.PruneLeavesOnlyWanted | crates/backend/src/sync.rs:253-264 | after prune only wanted config-sourced rows remain, exactly if every unwanted one was in sight |
| SyncTheorems.StaticClientsFollow | crates/backend/src/sync.rs:394-462 | with prune the static clients are the configuration's; without it they are added to; dynamic clients are untouched |
| SyncTheorems.SeenExactly | crates/backend/src/sync.rs:209-217 | the rows a run looks at are the config-sourced ones with fewer than 1000 such rows before them |
| SyncTheorems.WantedRowsHoldConfig | crates/backend/src/sync.rs:278-391 | after a completed run a wanted row holds the settings and the secret of its last enabled entry, none if there is none, and that entry's place up to the `i32` cap; it keeps its times unless it is new or was pruned |
| SyncTheorems.UnwantedRowsRetire | crates/backend/src/sync.rs:226-264 | an unwanted row goes with prune and is disabled without, if it is on the page; nothing else of it changes |
| SyncTheorems.LinksFollowRows | crates/data/src/pg/upstream_oauth2/provider.rs:416-441 | what refers to a provider goes if and only if a prune run sees the provider disabled or not wanted |
| SyncTheorems.ClientsHoldConfig | crates/backend/src/sync.rs:427-461 | after a completed run a configured client is static and holds the settings and the secret of its last entry; the columns of dynamic registration stay |
| SyncTheorems.SessionsFollowClients | crates/data/src/pg/oauth2/client.rs:650-722 | what belongs to a client goes if and only if a prune run finds it static and unnamed |
| SyncTheorems.UiOrderFollowsConfig | crates/backend/src/sync.rs:278-391 | with distinct ids the display order is the configuration's, strictly so below the `i32` cap |
| SyncTheorems.QuietExactly | crates/backend/src/sync.rs:201-264 | a second prune run meets no stale row exactly when no row out of sight of the first comes into sight |
| SyncTheorems.Idempotence | crates/backend/src/sync.rs:199-462 | a second run changes nothing but ciphertexts: always without prune, and with prune if and only if nothing comes into sight |
| SyncTheorems.SecondPruneFindsWork | crates/backend/src/sync.rs:201-264 | any number above 1000 of soft-deleted rows and an empty configuration: the first prune run leaves unwanted rows, and the second changes the tables again |
| SyncSteps.ProgressKeeps | crates/backend/src/sync.rs:199-462 | a single statement or query of an undisturbed run, reading the tables as they are, keeps to the plan made at its start, including where it faults |
| SyncSteps.ProgressIsPrefix | crates/backend/src/sync.rs:199-462 | at every stage the statements made are a prefix of the plan |
| SyncLock.SessionsStayOk | crates/backend/src/util.rs:30-49 | over every schedule: at most one session has the lock, at most once; users other than a sync never have it; each job owns its connection |
| SyncLock.HistoryStaysOk | crates/backend/src/sync.rs:181-468 | over every schedule the holder's block is the last and only running one and follows its plan |
| SyncLock.MutualExclusion | crates/backend/src/sync.rs:181-191 | in every schedule at most one run is between lock and unlock |
| SyncLock.JobsStartClean | crates/backend/src/util.rs:30-49 | a run never works in someone's open transaction nor on a lock left behind, whatever the pool handed out before |
| SyncLock.FaultStopsRun | crates/backend/src/sync.rs:299-461 | an error of the configuration ends a run like a failure |
| SyncLock.OpenTransactionIsRecycled | crates/backend/src/util.rs:30-49 | a transaction left open goes back to the pool with its connection, and a run that gets the connection begins without it |
| SyncLock.ClosedIsGone | crates/backend/src/util.rs:30-49 | a lost connection is gone with its lock and with the run that used it, and with nothing else |
| SyncLock.LockStaysBehind | crates/backend/src/sync.rs:181-191 | a failed run leaves its lock with the connection that goes back |
| SyncLock.RunsAreSerial | crates/backend/src/sync.rs:181-468 | the tables are what the runs give one after another, each a prefix of what it alone would have written, all of it and settled if it finished |
| SyncLock.UnlockReleases | crates/backend/src/sync.rs:464-468 | after a successful unlock no session has the lock |
| SyncLock.LockIsRecovered | crates/backend/src/util.rs:30-49 | a lock that outlives its run sits on an unused connection, and handing that out lets a waiting run go on |
| SyncManual.WholeSpares | crates/backend/src/sync.rs:199-462 | no statement of a plan is about a manual row or makes one |
| SyncManual.ManualRowsSurvive | crates/backend/src/sync.rs:209-212 | in every schedule, whatever the configurations and wherever runs break off, the manual providers are as they were, column for column, with all that refers to them |
| SyncHeal.ClearedIsDone | crates/backend/src/sync.rs:201-264 | from anywhere on the way, the clearing statements leave nothing undone of what one undisturbed run would have cleared |
| SyncHeal.AttemptsOnTheWay | crates/backend/src/sync.rs:199-462 | without prune always, and with prune from sheltered tables: after any number of runs broken off at any statement, every row, link, client and session is between its start and its goal, and what is due is still seen or done |
| SyncHeal.FailedRunsHeal | crates/backend/src/sync.rs:172-474 | from such tables a completed run after any number of broken-off ones leaves what one undisturbed run would have left, but for times and ciphertexts |
| SyncHeal.InterruptedHarms | crates/backend/src/sync.rs:253-264 | from all other tables one run that breaks off after the deletes makes the next complete run end differently |
| SyncHeal.HealsExactly | crates/backend/src/sync.rs:172-474 | all series of broken-off runs heal if and only if, with prune, every stale row beyond the first page has 1000 lasting rows before it |
| SyncHeal.OnePageIsSheltered | crates/backend/src/sync.rs:209-217 | tables whose config-sourced rows fit on one page meet the condition |
| SyncHeal.CrowdIsExposed | crates/backend/src/sync.rs:209-217 | tables that do not meet it |
| SyncSchedules.BreakOff | crates/backend/src/sync.rs:181-468 | from an idle pool some schedule makes exactly the first statements of a run, however many, and stops it there |
| SyncSchedules.GoThrough | crates/backend/src/sync.rs:181-468 | from an idle pool some schedule takes a faultless run to its end |
| SyncSafety.HistoryIsAttempts | crates/backend/src/sync.rs:181-468 | a serial history of runs towards one configuration is a series of attempts |
| SyncSafety.RunsConverge | crates/backend/src/sync.rs:172-474 | in every schedule of runs towards one configuration, with any failures, from sheltered tables: once the last holder has finished the tables are those of one undisturbed run |
| SyncSafety.PlanLoads | crates/backend/src/sync.rs:278-461 | a run goes through if and only if every enabled entry has a secret that loads and, beside the manual rows, a scope that parses, and every client loads |
| SyncSafety.FinishedLoads | crates/backend/src/sync.rs:278-461 | in every schedule, where a run has finished the configuration loads beside the manual rows of the beginning |
| SyncSafety.AttemptsHappen | crates/backend/src/sync.rs:181-468 | every series of broken-off runs is what some schedule does |
| SyncSafety.ScheduleHarms | crates/backend/src/sync.rs:181-468 | from tables that are not sheltered some schedule of two runs ends differently than one run |
| SyncSafety.ConvergesExactly | crates/backend/src/sync.rs:172-474 | all schedules converge if and only if the tables are sheltered or the configuration does not load, so that no run towards it can finish |
| Provisioning.StepKeeps | crates/tasks/src/matrix.rs:41-112 | every step of every process keeps the lock, read and push invariants |
| Provisioning.RunKeeps | crates/tasks/src/matrix.rs:41-112 | the invariants hold after every schedule |
| Provisioning.PushAgreesExactly | crates/tasks/src/matrix.rs:55-110 | every push, whatever its origin, is the flag committed at any moment since its reading if and only if the last commit for the user since then wrote that flag, or there was none and it was no revocation |
| Provisioning.PushIsCurrentExactly | crates/tasks/src/matrix.rs:55-110 | in particular at the moment of the push; for a job or a revocation only writers without the lock can have come between |
| Provisioning.JobPushesCommittedFlag | crates/tasks/src/matrix.rs:55-110 | when all writers take the lock, every job pushes the committed flag |
| Provisioning.OnlyGrantsGoBackwards | crates/backend/src/services/user_admin.rs:214-226 | among pushes for one user only a late grant can be older than a push before it |
| Provisioning.GrantsAreCommitted | crates/backend/src/handlers/admin/v1/users/update.rs:66-84 | a grant is only pushed after it was committed |
| Provisioning.MirrorAgreesExactly | crates/tasks/src/matrix.rs:91-110 | after every schedule and for every user: the homeserver holds the committed flag if and only if the last push agrees, or there is neither push nor user |
| Provisioning.JobConverges | crates/tasks/src/matrix.rs:91-110 | after a job's push as the last one the two agree if and only if nothing was committed since its reading or the last commit wrote the same flag |
| Provisioning.RevocationLastsExactly | crates/data/src/pg/user/mod.rs:199-277 | a committed revocation stays in force if and only if nobody decides to grant and no write of other columns that had read the old flag before it is committed after it |
| Provisioning.LockIsLowHalf | crates/data/src/pg/user/mod.rs:550-558 | the lock of a user is the low 64 bits of the id |
| Provisioning.RowIsKept | crates/data/src/pg/user/mod.rs:262-273 | from the update of a user's row to the end of its transaction nothing else is committed for the user |
| ProvisioningRest.EveryCommitServed | crates/tasks/src/new_queue/tracker.rs:142-168 | in every schedule each commit that queued a job still has a job of the user pending, or was followed by a job's push that had read it, or a job of the user failed eleven times since |
| ProvisioningRest.RestExactly | crates/backend/src/services/user_admin.rs:188-226 | for a user with no job and no process left: the flag is mirrored if and only if the last push is neither a grant overtaken by a revoking commit, nor a revocation that was not committed, nor a job after whose reading the other flag was committed; in the last two cases no commit since queued a job that was not given up |
| ProvisioningRest.NeverHeardOf | crates/backend/src/services/user_admin.rs:188-192 | a user at rest without any push has only commits that queued no job or whose job was given up |
| ProvisioningRest.HeardRestExactly | crates/backend/src/services/user_admin.rs:188-226 | when every change of the flag queued a job and none was given up, a user at rest is mirrored if and only if the last push is no revocation, and no grant while the flag is down |
| ProvisioningRuns.PatchAlone | crates/backend/src/services/user_admin.rs:75-210 | a patch on its own, after any schedule that leaves the lock free: the flag is what the patch names, or as it was; a job is queued if and only if the flag changed, a revocation pushed if and only if it went down, a grant due if and only if the patch names one |
| ProvisioningRuns.NobodyToPatch | crates/backend/src/services/user_admin.rs:77-82 | for a user who is not there nothing happens |
| ProvisioningRuns.EditAlone | crates/backend/src/services/user_profile.rs:67-95 | a profile edit on its own leaves the flag, pushes nothing and queues nothing |
| ProvisioningRuns.BreaksOff | crates/tasks/src/new_queue/tracker.rs:142-168 | a process that breaks off leaves nothing but its lock freed; a job goes back to the queue with its attempts counted, and is given up after the eleventh |
| ProvisioningRuns.JobAlone | crates/tasks/src/matrix.rs:41-112 | a queued job whose user's lock is free can run, and then homeserver and database agree |
| ProvisioningRuns.LateGrantCanWin | crates/backend/src/handlers/admin/v1/users/update.rs:66-84 | after any schedule that leaves a user's lock free, two patches and both of their jobs can end with the homeserver granting what the database has revoked, and no job left |
| ProvisioningRuns.UnlockedWriterMisleadsJob | crates/cli/src/commands/manage/command_handlers.rs:150-217 | after any such schedule, a promotion or demotion on the command line between a job's reading and its push, which dies before it queues its own job, leaves the homeserver with the old flag, and no job left |
| ProvisioningRuns.EditUndoesRevocation | crates/backend/src/services/user_profile.rs:67-95 | after any such schedule, a profile edit that has read the flag before a revocation and is committed after it restores the flag; the homeserver stays revoked, and no job is left |
| ProvisioningRuns.LostRevocationStays | crates/backend/src/services/user_admin.rs:188-206 | after any such schedule, a revocation that is pushed and then not committed leaves the homeserver revoked, the database granting, and the queue as it was |
| Homeserver.HomeserverAdmin.MxidParts | crates/matrix/src/lib.rs:228-230 | at sign, local part, colon, server name |
| Homeserver.HomeserverAdmin.MxidInjective | crates/matrix/src/lib.rs:228-230 | different local parts have different Matrix ids |
| Homeserver.HomeserverAdmin.ProvisionUser | crates/matrix/src/mock.rs:115-154 | creates or updates one account, refuses another subject, and touches no other account |
| Homeserver.HomeserverAdmin.SyncDevices | crates/matrix/src/mock.rs:201-211 | replaces the device set of an existing account, and nothing else |
| Homeserver.HomeserverAdmin.DeleteUser | crates/matrix/src/mock.rs:213-228 | deactivates an existing account and clears what erasing asks for |
| Homeserver.ProvisionedFields | crates/matrix/src/mock.rs:115-154 | every field of the account after an accepted request |
| Homeserver.RequestsMerge | crates/matrix/src/mock.rs:115-154 | a run of accepted requests leaves what their merge would have left, and repeating the merge changes nothing |
| Devices.PrefixOrderIrrelevant | crates/tasks/src/matrix.rs:217-228 | trying the two device prefixes in either order gives the same id |
| Devices.DeviceTokens | crates/tasks/src/matrix.rs:217-228 | the device of a scope token with either prefix |
| Devices.List | crates/data/src/storage/pagination.rs:122-150 | a page is the first rows after the cursor and says whether more remain |
| Devices.CollectScope | crates/tasks/src/matrix.rs:248-252 | adds exactly the device ids of one session's scope |
| Devices.CollectPage | crates/tasks/src/matrix.rs:247-254 | adds the device ids of a page and moves the cursor to its last row |
| Devices.Collect | crates/tasks/src/matrix.rs:231-297 | for every positive page size the cursor loop ends with exactly the device ids of all sessions |
| Devices.SyncDevicesJob | crates/tasks/src/matrix.rs:170-212 | the homeserver's device set becomes exactly the ids found in both kinds of sessions |
| Base62.Base62Encode | crates/data/src/tokens.rs:358-368 | the loop writes the digits least significant first and pads to six on the left |
| Base62.EncodeShape | crates/data/src/tokens.rs:358-368 | six characters of the alphabet for every 32-bit value |
| Base62.Collisions | crates/data/src/tokens.rs:358-368 | two non-zero values share an encoding if and only if one is the other times a power of 62 |
| Base62.ZeroIsAlone | crates/data/src/tokens.rs:358-368 | no other value is encoded like zero |
| Tokens.PrefixesMatch | crates/data/src/tokens.rs:252-269 | writing and matching prefixes are inverse, both ways |
| Base64.DecodeLengthRule | crates/data/src/tokens.rs:341-346 | unpadded base64url is refused at lengths of one more than a multiple of four (sections 3.2 and 5 of RFC 4648) |
| Base64.EncodeDecode | crates/data/src/tokens.rs:341-346 | decoding undoes encoding (section 5 of RFC 4648) |
| Base64.DecodeEncode | crates/data/src/tokens.rs:341-346 | only encodings are decoded: no stray bits, no other character |
| Tokens.MacaroonExactly | crates/data/src/tokens.rs:336-356 | the macaroon test recognises exactly the encodings of at least 13 bytes with the word at the fifth |
| Tokens.GuardsAreRedundant | crates/data/src/tokens.rs:285-318 | dropping the legacy guards would accept no further string |
| Tokens.CheckAcceptsExactly | crates/data/src/tokens.rs:285-318 | accepted are exactly a known prefix, 30 bytes without underscore, and the checksum of both, joined by underscores; the type is the prefix's |
| Tokens.ShapedIsDecided | crates/data/src/tokens.rs:285-318 | what is reported for a token of the right shape: the legacy prefixes, an unknown prefix, a wrong checksum with the expected one, or the type |
| Tokens.UnshapedIsRefused | crates/data/src/tokens.rs:285-318 | every other string is refused as malformed |
| Tokens.AlphanumericAt | crates/data/src/tokens.rs:348-356 | each random character from its byte |
| Tokens.GeneratedIsAccepted | crates/data/src/tokens.rs:271-283 | every generated token is accepted as its own type, whatever the random bytes and the checksum function |
| RefreshTokens.FirstAttemptDecides | crates/data/src/tokens.rs:112-176 | over every run of attempts the first accepted one decides: revoked refuses all, consumed refuses revoking and points to the latest replacement |
| RefreshRaces.LivePairsCounted | crates/backend/src/handlers/oauth2/token_service.rs:665-797 | over every schedule of reads and commits: one live pair more than there were exchanges whose token had been replaced or withdrawn since it was read |
| RefreshRaces.ExactlyOneLive | crates/backend/src/handlers/oauth2/token_service.rs:665-797 | exactly one pair is live if and only if no two exchanges overlapped; it is then the newest |
| RefreshRaces.RaceLeavesTwoLive | crates/data/src/pg/oauth2/refresh_token.rs:188-214 | from any state with a live token, two requests that both read it before either commits both get a live pair |
| RefreshRaces.ExchangeAcceptsExactly | crates/backend/src/handlers/oauth2/token_service.rs:665-797 | an uninterrupted request is granted if and only if its token is live, or its replacement is readable and unclaimed; otherwise nothing changes, and if granted the whole new store is given |
| RefreshRaces.SerialAcceptsExactly | crates/backend/src/handlers/oauth2/token_service.rs:709-790 | without overlaps that is the newest token, or the one it replaced while it is unclaimed |
| RefreshRaces.AcceptableColumns | crates/backend/src/handlers/oauth2/token_service.rs:709-790 | the condition column by column: neither revoked nor consumed, or consumed with a replacement that is neither and whose access token was never used |
| RefreshRaces.StateColumns | crates/data/src/pg/oauth2/refresh_token.rs:42-75 | each state is spelt by exactly one choice of columns, and which choices spell none |
| RefreshRaces.RowsFollowStates | crates/data/src/tokens.rs:112-176 | the writes of an exchange do to the columns what the token's own transitions do to its state |
| RefreshRaces.ExchangeWrites | crates/backend/src/handlers/oauth2/token_service.rs:790-820 | every column of every row after a granted request |
| RefreshRaces.UsesAreRemembered | crates/data/src/pg/oauth2/access_token.rs:199-216 | in every schedule a row is marked as used if and only if its access token was used after it was issued |
| RefreshRaces.ReplayAfterUseIsRefused | crates/backend/src/handlers/oauth2/token_service.rs:760-765 | once a replacement was used, an uninterrupted request for the token it replaced changes nothing, in every continuation |
| RefreshRaces.AbandonedLeavesNothing | crates/backend/src/handlers/oauth2/token_service.rs:665-797 | a request that is abandoned leaves nothing behind |
| RefreshRaces.RefusedForEver | crates/backend/src/handlers/oauth2/token_service.rs:709-790 | a token that is hopeless now is granted by no continuation |
| RefreshRaces.RefusedForEverExactly | crates/backend/src/handlers/oauth2/token_service.rs:709-790 | a token is refused in every continuation if and only if it is hopeless: no request that could still be granted has read it and it is not acceptable |
| RefreshRaces.FollowingEnds | crates/data/src/tokens.rs:164-176 | in any store whose tokens point to later ones, following replacements never comes back and ends within the store |
| RefreshRaces.EveryScheduleIsForward | crates/data/src/pg/oauth2/refresh_token.rs:188-214 | every schedule leaves such a store |
| RefreshRaces.ReplacementsLeadToLive | crates/data/src/tokens.rs:164-176 | without overlaps the replacements of a token that was not withdrawn end at the live one |
| Paths.PositionIsListed | crates/i18n-scan/src/minijinja.rs:22-267 | in a depth-first listing, an item is found at the position its path gives |
| Paths.PositionsDiffer | crates/i18n-scan/src/minijinja.rs:22-267 | different paths have different positions |
| Templates.Unfolds | crates/i18n-scan/src/minijinja.rs:22-267 | the calls visited for a node are the node itself if it is a call, then those of its children in turn |
| Templates.PathsHavePlaces | crates/i18n-scan/src/minijinja.rs:22-267 | each path to a call has its own place in the visiting order, which holds that call |
| Templates.PlacesHavePaths | crates/i18n-scan/src/minijinja.rs:22-267 | every place in the visiting order has a path |
| Templates.ListedIsReached | crates/i18n-scan/src/minijinja.rs:22-267 | a call is visited if and only if some path of the template leads to it |
| KeyScan.Context.Record | crates/i18n-scan/src/key.rs:27-29 | appends one key |
| KeyScan.Context.RecordTranslationKey | crates/i18n-scan/src/minijinja.rs:131-158 | records the key with its kind and place, or refuses a call without a literal |
| KeyScan.Context.VisitCall | crates/i18n-scan/src/minijinja.rs:112-129 | visits the call, its callee and its arguments as the listing says, stopping at the first refusal |
| KeyScan.Context.VisitArgs | crates/i18n-scan/src/minijinja.rs:169-177 | visits the arguments in order |
| KeyScan.Context.VisitArg | crates/i18n-scan/src/minijinja.rs:179-189 | visits the expression of any kind of argument |
| KeyScan.Context.VisitOptional | crates/i18n-scan/src/minijinja.rs:205-215 | visits an optional expression |
| KeyScan.Context.VisitExprs | crates/i18n-scan/src/minijinja.rs:198-203 | visits the expressions in order |
| KeyScan.Context.VisitExpr | crates/i18n-scan/src/minijinja.rs:217-267 | visits every part of every kind of expression |
| KeyScan.Context.VisitMacro | crates/i18n-scan/src/minijinja.rs:104-110 | visits body, arguments and defaults |
| KeyScan.Context.VisitStmts | crates/i18n-scan/src/minijinja.rs:191-196 | visits the statements in order |
| KeyScan.Context.DispatchStmt | crates/i18n-scan/src/minijinja.rs:22-102 | visits every part of every kind of statement |
| KeyScan.Context.FtlKeys | crates/i18n-scan/src/key.rs:36-43 | the strictly increasing list of the recorded names, every dot turned into a hyphen and nothing else changed |
| KeyScan.WalkSucceedsExactly | crates/i18n-scan/src/minijinja.rs:16-267 | the walk succeeds if and only if every call of the translation function at any path has a string literal as its first, positional argument |
| KeyScan.WalkRecordsExactly | crates/i18n-scan/src/minijinja.rs:16-267 | on success a key is there if and only if some path leads to a translation call that starts with its name; it is plural if and only if the call has a `count` keyword, and its place is the call's |
| KeyScan.EachCallRecordedOnce | crates/i18n-scan/src/minijinja.rs:16-267 | on success recorded keys and paths to translation calls match one to one: each path has its own key, which its call carries, and no key is left over |
| Order.IncreasingUnique | crates/oauth2-types/src/scope.rs:113-114 | a set has one strictly increasing listing |
| Order.CollectIsSet | crates/i18n-scan/src/key.rs:38-43 | collecting into an ordered set gives the strictly increasing listing of the elements |
| Order.SortByIsStable | crates/jose/src/constraints.rs:196-196 | sorted, a permutation, and equal keys in their old order |
| Keys.TablesAgree | crates/keystore/src/lib.rs:546-639 | a signer and a verifier can be built exactly for the algorithms listed as possible, and carry that algorithm |
| Keys.DeclaresExactly | crates/jose/src/jwk/mod.rs:75-118 | which metadata declares signing and which encryption |
| Keys.Validate | crates/jose/src/jwk/mod.rs:396-442 | accepted are exactly the keys whose algorithm is possible and whose metadata never declares both families |
| Constraints.DecidesExactly | crates/jose/src/constraints.rs:88-160 | for each kind of constraint, from the fields of the key: when it counts and when it rejects |
| Constraints.ScoreCountsMatches | crates/jose/src/constraints.rs:175-202 | the score is the number of constraints that the key matches |
| Constraints.ScoreKey | crates/jose/src/constraints.rs:181-194 | for every iteration order: nothing if some constraint rejects, else the number of positive decisions |
| Constraints.Filter | crates/jose/src/constraints.rs:175-202 | the result is a function of the set of constraints, not of its iteration order |
| Constraints.ChosenIsSorted | crates/jose/src/constraints.rs:175-202 | exactly the keys no constraint rejects, each as often as given, lowest score first |
| Constraints.ChosenIsStable | crates/jose/src/constraints.rs:196-196 | keys of equal score keep their order |
| Constraints.ConstraintsOnlyRemove | crates/jose/src/constraints.rs:88-202 | adding constraints never adds a key |
| Constraints.HeaderKeysAreUsable | crates/jose/src/constraints.rs:235-245 | a key selected for a header can be used with its algorithm if and only if the algorithm it declares, if any, is possible; validated keys always can |
| Constraints.RawSelectionCanMislead | crates/jose/src/constraints.rs:91-106 | an unvalidated key that is selected and cannot be used |
| Constraints.FindKeys | crates/jose/src/jwk/mod.rs:623-628 | the filter over the valid keys |
| Constraints.FindKey | crates/jose/src/jwk/mod.rs:614-619 | the last of those |
| Constraints.BestKeyIsBest | crates/jose/src/jwk/mod.rs:612-628 | nothing is found if and only if nothing fits; what is found fits, and nothing that fits scores higher |
| Constraints.BestKeyIsLast | crates/jose/src/jwk/mod.rs:612-628 | among the keys that fit and score highest the one given last is found |
| Constraints.AvailableSigningAlgorithms | crates/jose/src/jwk/mod.rs:644-662 | the advertised algorithms are exactly those for which a signing key is found, sorted and without repeats |
| Constraints.SigningKeyCanSign | crates/jose/src/jwk/mod.rs:630-642 | the key found for an algorithm can sign with it |
| Constraints.SigningKeyDeclaresMost | crates/jose/src/jwk/mod.rs:630-642 | a signing key is found if and only if some valid key may sign; of those that may, none declares more of algorithm and use |
| Constraints.HeaderKeyDeclaresMost | crates/jose/src/constraints.rs:235-245 | likewise for a header, by algorithm and identifier |
| Constraints.DeclaredIsPreferred | crates/jose/src/jwk/mod.rs:630-642 | a key that declares algorithm and use is preferred to every key that declares less, wherever they stand in the list |
| Constraints.NamedIsPreferred | crates/jose/src/constraints.rs:235-245 | a key that declares the algorithm and has the header's identifier is preferred to every other |
| Keystore.StepKeeps | crates/keystore/src/lib.rs:775-806 | every step of every call keeps the cache faithful and only adds to it |
| Keystore.EntriesNeverChange | crates/keystore/src/lib.rs:796-805 | what is cached, built or answered stays so in every continuation |
| Keystore.AnswersAgree | crates/keystore/src/lib.rs:770-806 | in every schedule all answers for one algorithm are the same allocation, equal to a fresh build; none if and only if the selected key is missing or has no identifier |
| Keystore.NamelessKeyHides | crates/keystore/src/lib.rs:779-780 | two keys for ES256 that score alike, the second without an identifier: there is no signer, although there is one for the first alone |
| Keystore.CallAlone | crates/keystore/src/lib.rs:770-806 | a call on its own ends with one answer, whose signer is the cached one, or the next one built and then cached; nothing if the selected key is missing or has no identifier |
| Keystore.OwnStepsFinish | crates/keystore/src/lib.rs:775-806 | a call is answered after at most three steps of its own, whatever others do |
| Text.JoinSplit | crates/oauth2-types/src/scope.rs:133-137 | joining what was split gives the string back |
| Text.SplitJoin | crates/oauth2-types/src/scope.rs:133-137 | splitting what was joined gives the parts back |
| Scope.Show | crates/oauth2-types/src/scope.rs:165-178 | the printing loop puts one space between tokens |
| Scope.NqcharExactly | crates/oauth2-types/src/scope.rs:78-100 | the allowed characters are the visible ASCII ones but the double quote and the backslash |
| Scope.ParseAcceptsExactly | crates/oauth2-types/src/scope.rs:78-138 | accepted are exactly one or more tokens of allowed characters joined by single spaces (section 3.3 and Appendix A.4 of RFC 6749) |
| Scope.ParsedTokens | crates/oauth2-types/src/scope.rs:130-157 | the scope holds exactly the tokens written, and `contains` says so |
| Scope.ShowParse | crates/oauth2-types/src/scope.rs:130-178 | parsing undoes printing if and only if the scope has a token and only proper ones |
| Scope.SameScope | crates/oauth2-types/src/scope.rs:130-178 | two accepted strings parse and print alike if and only if they hold the same tokens |
| Scope.EmptyScopeIsUnreadable | crates/oauth2-types/src/scope.rs:165-178 | the empty scope's text does not parse |
| Scope.TokenSet.constructor | crates/oauth2-types/src/scope.rs:199-203 | the set of the given tokens, in order |
| Scope.TokenSet.Insert | crates/oauth2-types/src/scope.rs:160-162 | adds one token, keeps the order, and says whether it was new |
| ResponseType.Show | crates/oauth2-types/src/response_type.rs:125-140 | `none` for the empty set, else the tokens with one space between |
| ResponseType.SpaceExactly | crates/oauth2-types/src/response_type.rs:106-123 | which characters are trimmed and which split |
| ResponseType.ParsedTokens | crates/oauth2-types/src/response_type.rs:106-123 | only blank strings are refused; the set holds exactly the tokens written |
| ResponseType.SameResponseType | crates/oauth2-types/src/response_type.rs:106-123 | two strings parse alike if and only if they mean the same tokens: order, repetition and spacing do not matter |
| ResponseType.RoundTripExactly | crates/oauth2-types/src/response_type.rs:106-140 | parsing undoes printing if and only if unknown tokens are words other than the known names, no outer one starts or ends in white space, and the set is not the lone unknown `none` |
| ResponseType.RegisteredRoundTrip | crates/oauth2-types/src/response_type.rs:150-193 | every registered value converts to a set and back, and so does its text (section 3.1.1 of RFC 6749) |
| ResponseType.ToRegisteredIsExact | crates/oauth2-types/src/response_type.rs:169-193 | conversion fails if and only if a token is unknown, and otherwise loses nothing: the catch-all is only reached by the empty set |
| PolicyContext.StripNulls | crates/policy/src/cedar.rs:295-310 | dropping null members and stripping what is left, recursively, gives the stripped value |
| PolicyContext.StrippedAt | crates/policy/src/cedar.rs:295-310 | every path leads where it led before, stripped, unless to a null member |
| PolicyContext.NoNullMembers | crates/policy/src/cedar.rs:295-310 | no object at any depth has a null member; arrays keep their length |
| PolicyContext.StrippingSuffices | crates/policy/src/cedar.rs:174-177 | the result is free of nulls if and only if all nulls were object members |
| PolicyContext.StrippedTwice | crates/policy/src/cedar.rs:295-310 | stripping twice is stripping once |
| PolicyContext.BuildContext | crates/policy/src/cedar.rs:137-177 | the context is the input with the clock, stripped |
| PolicyContext.ContextMembers | crates/policy/src/cedar.rs:140-177 | the three time members are always the server's; every other member is the input's, nulls aside |
| PolicyContext.Violations | crates/policy/src/cedar.rs:199-238 | no violation if and only if allowed; reasons then errors in order, or one stock violation |
| Lifecycle.ServingLeaves | crates/backend/src/lifecycle.rs:197-279 | while serving, a pending SIGTERM or SIGINT, or a cancelled soft token, leaves the loop: the whole new state |
| Lifecycle.ServingGoesOn | crates/backend/src/lifecycle.rs:197-279 | a pending SIGHUP starts a reload; the watchdog changes nothing |
| Lifecycle.ReloadingReacts | crates/backend/src/lifecycle.rs:225-262 | a reload ends when done or at its deadline, not before |
| Lifecycle.DrainingReacts | crates/backend/src/lifecycle.rs:284-319 | the drain ends with a second signal, at its deadline, or when the closed tracker has no task left, and not otherwise: the whole new state |
| Lifecycle.AbortingReacts | crates/backend/src/lifecycle.rs:319-330 | the manager returns when no task is left or at the last deadline, and not otherwise |
| Lifecycle.StepKeeps | crates/backend/src/lifecycle.rs:179-339 | every event keeps the token order, the deadlines and the causes of shutdown |
| Lifecycle.TokensAreOrdered | crates/backend/src/lifecycle.rs:90-97 | in every run hard cancellation implies soft cancellation, and tokens are never restored |
| Lifecycle.ExitCodeExactly | crates/backend/src/lifecycle.rs:197-338 | failure is reported if and only if the manager left its loop because the soft token was cancelled |
| Lifecycle.LeavesOnce | crates/backend/src/lifecycle.rs:197-279 | the loop is left once |
| Lifecycle.ExitCodeHasACause | crates/backend/src/lifecycle.rs:197-338 | failure only after some task cancelled a token, success only after a signal |
| Lifecycle.ShutdownIsBounded | crates/backend/src/lifecycle.rs:284-330 | from leaving the loop to the return takes at most both grace periods |
| Lifecycle.ReturnIsDrainedOrLate | crates/backend/src/lifecycle.rs:319-330 | the manager returns with both tokens cancelled, and with tasks left only at the end of the last grace period |
| Lifecycle.ExitIsFinal | crates/backend/src/lifecycle.rs:332-338 | nothing changes the outcome afterwards |
| Lifecycle.SecondSignalAborts | crates/backend/src/lifecycle.rs:290-319 | a second signal during the drain cancels the hard token at once |
| Lifecycle.WaitingReturns | crates/backend/src/lifecycle.rs:287-330 | from the drain, waiting alone leads to the return, whatever tasks do |
| Totp.Truncated | crates/backend/src/totp.rs:28-35 | the truncation reads within the digest and leaves 31 bits (section 5.3 of RFC 4226) |
| Totp.NineDigitsFit | crates/backend/src/totp.rs:37-37 | ten to the number of digits fits 32 bits if and only if there are at most nine |
| Totp.GeneratesUpToNine | crates/backend/src/totp.rs:21-38 | for up to nine digits, in every build, the code is the truncated digest modulo that power, and below it |
| Totp.TenDigitsOverflow | crates/backend/src/totp.rs:37-37 | at ten digits a build with overflow checks panics, and one without shows 0 where the code should be 1410065408 |
| Totp.RightExactly | crates/backend/src/totp.rs:21-38 | every digest gets the right code if and only if there are at most nine digits, or overflow is unchecked and the wrapped power is at least 2^31 |
| Totp.ZeroFromThirtyTwo | crates/backend/src/totp.rs:37-37 | the wrapped power is zero, and the division panics, if and only if there are at least thirty-two digits |
| Totp.Verify | crates/backend/src/totp.rs:51-84 | for every number of digits: it panics if and only if text and secret are read and there are at least thirty-two digits, or ten with overflow checks; otherwise accepted if and only if the text is a 32-bit number, the secret decodes, and the code is that of the current step or a neighbour |
| Totp.TruncatedIsWritten | crates/backend/src/totp.rs:28-35 | for every digest: truncation reads the number written where the last octet points, without the sign bit |
| Totp.DisplayParses | crates/backend/src/totp.rs:52-54 | a code shown with leading zeros reads back as itself |
| Totp.ParseExactly | crates/backend/src/totp.rs:52-54 | read are exactly the 32-bit numbers as shown at some width, with or without a plus sign |
| Totp.WindowExactly | crates/backend/src/totp.rs:66-77 | the steps tried are the current one and the two beside it; a period of zero stands for thirty seconds |
| Totp.SkewIsTolerated | crates/backend/src/totp.rs:66-84 | for every number of digits for which codes are right, the code of RFC 4226 shown by a clock at most one period away is accepted, also near time zero (section 5.2 of RFC 6238) |
| Totp.AcceptedIsRecent | crates/backend/src/totp.rs:66-84 | what is accepted was on show at some time less than two periods away |

## Left out

- HTTP routing, middleware, listeners, telemetry, object storage, the outbound client, the Palpo connector, the remote policy provider and notifications: plumbing around calls that cannot be seen.
- Cryptography and checksums (CRC-32, SHA, HMAC, AEAD, RSA, EC, Ed25519, DER, PEM): parameters.
- PostgreSQL beyond tables, first pages, auto-commit and advisory locks; ids are natural numbers in the order of ULIDs.
- Queue internals, flow and workflow status enums, provider metadata validation, PKCE, username rules, user-agent parsing, locales, frontend, command line and code generators: easy members only, or rest on libraries.
- The conversions of provider and client settings in `sync.rs`: one opaque value, with flags for the ways they fail.
- Other writers to the provider and client tables during a sync: the lock only keeps syncs apart, and `SyncLock` has no other writer.
- The error texts of every part: an error is a missing result or a flag.
- Keystore.AnswersAgree: calls are modelled as steps between the lock's critical sections, on values; the lock of the cache itself is taken as atomic.
- Lifecycle.ShutdownIsBounded: time does not run past a deadline the manager waits for, which stands for a prompt scheduler; the watchdog and the service manager's notifications change nothing and are not recorded.
- PolicyContext.StripNulls: the tree is returned rather than updated in place; the value is owned by the caller alone, so nothing is shared.
- Provisioning.StepKeeps: a call to the homeserver either happens or not; one that fails after taking effect is not modelled. The check that an administrator is left only refuses more patches.
- ProvisioningRest.EveryCommitServed: taking, retrying and giving up a job are single events; the queue's own tables, leases and delays are not modelled.
- SyncTables.Database.Delete: the tables that refer to a provider or a client are kept as maps to the row they refer to; their other columns are left out.
- RefreshRaces.ExchangeAcceptsExactly: one session; the handler's checks of client and session, and the clean-up of old access tokens, are not modelled; they only refuse more exchanges. A commit is one event, as its transaction is; the use of an access token is recorded at any time.
- Totp.Verify: the step number does not overflow; in the source it would only at the last second of a 64-bit clock.
- SyncLock.LockIsRecovered: says that a waiting run can go on, not that it will; the order in which waiters get the lock is PostgreSQL's.
- Tokens.GeneratedIsAccepted: the random bytes are reduced to the alphabet as in the source, but their distribution is not considered.
- Order.SortByIsStable: sorting is the stable insertion sort; any stable sort by the same key gives the same result.
- KeyScan.Context.FtlKeys: sorting and removing repeats is one step, whose result is unique.
