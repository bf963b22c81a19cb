# HaaS: verified model of the core

HaaS gives agents containers to work in. This project models the parts of it whose
correctness is hard to see from any one function, and proves properties of them for all
inputs, all runs and all interleavings. `dafny verify dfyconfig.toml` checks everything.

| module | what it holds |
|---|---|
| Domain, Entities | environments, snapshots and skills as values; rows and Unix-second times; what one store call does |
| Lifecycle, LifecycleInvariant, LifecycleTheorems, LifecycleCauses, LifecycleEffects, LifecycleWitness | create, destroy, reap and touch operations as an interleaved protocol over one store (memory or SQL) and one engine |
| MemoryStore, Service | the memory store's classes, and the service and reaper run one call at a time |
| Isolation, StoreCalls | per-user noninterference, and the same calls on the memory store itself |
| SqlStore, ServeLaws | memory store against SQL store, expiry; what services answer after what they did |
| Rebind, Migration | placeholder rewriting and schema migration of the SQL store |
| WsSession, KeepAlive | the WebSocket exec session as a protocol, and its timing |
| Streams, ExecStream | Docker stream demultiplexing, exec events and the client's fold |
| Runs | what persists along a run, and what begins in it |
| Text, Paths, Archive, Install, Skills, Frontmatter | path cleaning, skill archives, skill injection, the skill library, SKILL.md heads |
| Ancestry | where the images of environments come from, and what becomes of snapshot images |

## How it is modelled

* Every store call, every engine call and every write to a shared field is one atomic step
  of the lifecycle protocol. The memory store hands out the pointer it keeps, so the model
  has a heap and a write to `env.ContainerID` is visible before `Update`; the SQL store
  scans rows into new objects, so stale copies are written back. Both are covered by the
  same theorems.
* The engine is an oracle: any call may fail, and it hands out fresh container IDs. A failed
  `StopContainer` leaves the container alive.
* IDs are opaque and fresh when generated; users on the request path are not empty.
* In the lifecycle protocol `ListExpired` may return any records at all, which covers every
  clock and every timeout; what it really returns is specified in `MemoryStore` and `Service`.
* Times are seconds and nanoseconds; `Unix()` is the seconds, a floor.
* `path.Clean` and `filepath.Clean` follow Go's documented lexical rules as a component
  stack. Text is a sequence of characters.
* In a WebSocket session a call may return, or may have to: a read from the container or the
  client, a write to the container and a resize can wait for ever while nothing is closed or
  cancelled, a caller of `closeAll` waits for the one inside, and the handler for both pumps.
  Writes to the client have a deadline and the exit-code query a timeout, so they return. The
  scheduler only has to be fair to goroutines that are not waiting.
* A snapshot tag names the image committed under it. When that image is gone, the engine
  (internal/engine/docker.go:60-71) asks a registry for the tag; what a registry would serve
  under HaaS's private tag names is not looked into.
* gzip and tar are given functions; a tar is a list of entries up to its end or a format error.
* Unpacking follows Docker's archive rules for an upload that may not replace a directory by
  a file or a file by a directory; a broken transfer leaves its first entries behind. The
  container's file system holds directories, files and special nodes, no symbolic links.

## What came out

* Orphaned containers have exactly one root cause out of three (`OrphanRootCause`), and a
  run of the memory store that loses a container to an early read exists (`EarlyReadOrphans`).
* `closeAll` has to close both the session and the connection: leaving out either gets some
  run stuck for good, with both nothing ever does (`BothClosesNeeded`).
* The keep-alive period plus the session's own update lag does not bound the staleness of
  `LastUsedAt`: another request that took its time earlier may write last. The exact bound
  adds the lag of the other writers (`IdleTimeoutExact`, `OthersMatter`).
* `rebind` preserves meaning exactly for the queries in which no unquoted `$` is followed by
  a digit and no unquoted `?` is followed by one (`RebindMeaning`); nothing is needed for
  keeping quoted text or for idempotence.
* `migrate` completes exactly when older tables already have the columns it uses without
  adding them (`MigrateSucceeds`).
* A record can be expired for the memory store and not yet for SQL (`ExpiryGap`), for less
  than a second (`ExpirySandwich`).
* With the largest int64 limit `readAllMax` reads nothing (`Limited`). The bound of twenty
  times the limit on an accepted archive holds for every limit all the same
  (`AcceptedBound`).
* `splitPath` loses a slash of a path such as `//x` (`SplitPathRejoins`); sanitized paths are
  never of that form.
* README.md:112-118 of HaaS shows the states `stopping` and `destroyed`; the code never
  stores them, and neither does the model (`RecordHistory`). README.md:342 says that a request
  without the user header sees all environments; internal/auth/auth.go:93 makes it act as
  the tenant's own user, and the model follows the code: only the empty user ID, which the
  reaper uses, sees everything.

## Model

| member | source | states |
|---|---|---|
| `LifecycleInvariant.StepInv` | internal/service/environment.go:136-216 | every step of every operation keeps the protocol's invariant, and to other operations it only adds: container IDs, running status and history never go back |
| `LifecycleInvariant.ExecutionInv` | internal/lifecycle/reaper.go:61-94 | the invariant holds in every state of every interleaving of creates, destroys, reaps and touches, for either store |
| `LifecycleTheorems.RecordHistory` | internal/store/sql.go:292-318 | between any two moments of any run a record's owner, tenant, spec, creation and expiry times stay, its container ID is set once, its status only goes from creating to running, a running record has a container, and a deleted ID never returns, although stale copies are written back |
| `LifecycleTheorems.RecordStep` | internal/service/exec.go:45-82 | the same for one step between a split read and write |
| `LifecycleTheorems.OrphanStep` | internal/service/environment.go:141-167 | the step that leaves a live container without record or holder has exactly one of three forms |
| `LifecycleTheorems.OrphanForever` | internal/service/environment.go:195-216 | a container nobody accounts for is never accounted for again |
| `LifecycleTheorems.OrphansExplained` | internal/lifecycle/reaper.go:71-89 | each orphan of a run was lost by exactly one step, with one cause |
| `LifecycleCauses.OrphanRootCause` | internal/service/environment.go:136-216 | each orphan has exactly one root cause: a failed `StopContainer`, a failed final `Update`, or a destroy or reap that read the record while its container ID was empty |
| `LifecycleCauses.FindDelete` | internal/service/environment.go:164-167 | a record that vanished under a running create was deleted by a destroy or reap, not by a rollback |
| `LifecycleCauses.TornDownOnce` | internal/store/memory.go:72-84 | a record is deleted by at most one teardown of a run |
| `LifecycleEffects.OrphanEvents` | internal/service/environment.go:150-213 | behind every orphan there is an event of the run: a `StopContainer` of it that failed, a last `Update` of its create that failed, or a destroy or reap that looked at its record while it had no container ID and then deleted it |
| `LifecycleEffects.RunningWasStarted` | internal/service/environment.go:151-165 | in every run of either store, a record that shows running has a container that was started successfully before |
| `LifecycleEffects.CreateShows` | internal/service/environment.go:164-167 | a create whose last update finds its record leaves it running with the container made for it, else as it was built |
| `LifecycleEffects.CreateEnds` | internal/service/environment.go:136-169 | a create ends unstored, rolled back or updated, and a rollback without I/O error leaves no record |
| `LifecycleEffects.RollbackWasRefused` | internal/service/environment.go:141-158 | a create rolls back only after the engine refused to make or start its container |
| `LifecycleEffects.TouchShows` | internal/service/exec.go:79-82 | a touch whose update finds the record leaves the time it wrote, floored in SQL, and no other record changed |
| `LifecycleEffects.WriteShows` | internal/service/file.go:140 | the write of the time changes that field alone, and shows at once in the memory store |
| `LifecycleEffects.StopRemoves` | internal/engine/docker.go:117-133 | a container stopped successfully is gone for the rest of the run |
| `LifecycleTheorems.TeardownComplete` | internal/lifecycle/reaper.go:71-89 | when a destroy or reap pass ends and its deletes met no error, every record it listed is gone |
| `LifecycleWitness.EarlyReadOrphans` | internal/lifecycle/reaper.go:78-88 | for every new environment some run of the memory store ends with nothing in flight, no record and its container alive |
| `Service.EnvironmentService.Validate` | internal/service/environment.go:74-115 | a request is accepted exactly if its image is allowed or its snapshot visible and the defaulted CPU, memory and network are in range; each error names the first check that fails; the spec is the request's, field by field, with what is left out taken from the configuration |
| `Service.EnvironmentService.CreateEnvironment` | internal/service/environment.go:71-170 | either one running record with the requested spec and a live, started container of its own appears, or the store is unchanged and no container is left unless stopping it failed |
| `Service.EnvironmentService.Launch` | internal/service/environment.go:136-169 | the saga with its rollback, against the same two outcomes, keeping every live container named by a record or a failed stop, and every running record's container started |
| `Service.EnvironmentService.Rollback` | internal/service/environment.go:151-158 | after a failed start the record is gone, and the container unless stopping it failed |
| `Service.EnvironmentService.DestroyEnvironment` | internal/service/environment.go:195-216 | exactly the caller's record goes, with its container unless the stop failed; a missing or foreign record changes nothing |
| `Service.EnvironmentService.ReapPass` | internal/lifecycle/reaper.go:61-94 | exactly the expired records go, with their containers except where stopping failed |
| `Service.SnapshotService.CreateSnapshot` | internal/service/snapshot.go:39-80 | a running environment of the user gets an image and a record; a refused record takes the image with it unless deleting that fails; every image keeps a record or a failed deletion |
| `Service.SnapshotService.DeleteSnapshot` | internal/service/snapshot.go:109-129 | exactly the user's record goes, and its image unless deleting it failed |
| `Service.PrepareExec` | internal/service/exec.go:45-59 | the stored pointer of a running environment the user may see, or the reason why not |
| `Service.StartExec` | internal/service/exec.go:61-93 | an exec changes only the last-used time of its record, and never brings back a record that has gone since it was read |
| `Service.ConservedDrop` | internal/lifecycle/reaper.go:78-88 | dropping a record whose container is gone or failed to stop keeps every live container accounted for |
| `MemoryStore.MemoryStore.Create` | internal/store/memory.go:36-41 | the caller's pointer itself becomes the record |
| `MemoryStore.MemoryStore.Get` | internal/store/memory.go:44-55 | the stored pointer, if the user may see it |
| `MemoryStore.MemoryStore.Update` | internal/store/memory.go:57-69 | replaces the whole record of the same owner and otherwise nothing |
| `MemoryStore.MemoryStore.Delete` | internal/store/memory.go:72-84 | removes exactly a record the user may see |
| `MemoryStore.MemoryStore.UpdateLastUsed` | internal/service/file.go:139-144 | the write through the shared pointer is the store's new content, one field of one record; a record that has gone since it was read does not come back |
| `MemoryStore.MemoryStore.List` | internal/store/memory.go:87-98 | every visible record once, and no other |
| `MemoryStore.MemoryStore.ListExpired` | internal/store/memory.go:113-129 | every expired record once, and no other |
| `MemoryStore.MemoryStore.GetSnapshot` | internal/store/memory.go:143-154 | the snapshot, if the user may see it |
| `MemoryStore.MemoryStore.ListSnapshots` | internal/store/memory.go:156-167 | the visible snapshots, all of them |
| `MemoryStore.MemoryStore.GetSkill` | internal/store/memory.go:218-229 | the skill, if the user may see it |
| `MemoryStore.MemoryStore.DeleteSnapshot` | internal/store/memory.go:169-181 | removes exactly a snapshot the user may see |
| `MemoryStore.MemoryStore.UpsertSkill` | internal/store/memory.go:199-216 | replaces the archive of the one record with this user and name, or adds a record; the caller's struct takes over the persisted ID and creation time; uniqueness is kept |
| `MemoryStore.MemoryStore.FindSkill` | internal/store/memory.go:202-212 | the search finds the record with this user and name if there is one, in any map order |
| `MemoryStore.MemoryStore.GetSkillArchive` | internal/store/memory.go:231-242 | the archive, if the user may see the skill |
| `MemoryStore.MemoryStore.ListSkills` | internal/store/memory.go:244-255 | every visible skill once, and no other |
| `MemoryStore.MemoryStore.DeleteSkill` | internal/store/memory.go:257-269 | removes exactly a skill the user may see |
| `Entities.UpsertKeepsSkills` | internal/store/memory.go:196-216 | after an upsert keys are IDs, (user, name) is unique, sizes are the archives', and the persisted ID holds the new archive |
| `Isolation.PurgeTheorem` | internal/store/memory.go:36-269 | for every sequence of calls and reap passes, a user's replies and records are those of the run with everybody else's calls removed |
| `Isolation.RepliesSnoc` | internal/store/memory.go:36-269 | the replies that the theorem compares are the answers to the user's calls in the states they were made in |
| `Isolation.PurgeSnoc` | internal/store/memory.go:36-269 | purging drops exactly the calls of others |
| `Isolation.OwnStep` | internal/store/memory.go:44-111 | a user's call does the same on the user's part of the store as on all of it, with the same reply |
| `Isolation.OthersStep` | internal/store/memory.go:57-84 | another user's call leaves the user's part unchanged |
| `Isolation.ReapShows` | internal/lifecycle/reaper.go:61-94 | after a reap pass an expired record answers to nobody, and every other as before |
| `Isolation.ReapStep` | internal/store/memory.go:113-129 | reaping commutes with restriction to one user's records |
| `StoreCalls.PerformEnv` | internal/store/memory.go:36-98 | the store's methods for environments give the replies and leave the content that the isolation theorems speak about |
| `StoreCalls.PerformSnapshot` | internal/store/memory.go:136-181 | the same for snapshots |
| `StoreCalls.PerformUpsert` | internal/store/memory.go:199-216 | the same for registering a skill |
| `StoreCalls.PerformSkillRead` | internal/store/memory.go:218-255 | the same for reading skills |
| `StoreCalls.PerformDeleteSkill` | internal/store/memory.go:257-269 | the same for deleting a skill |
| `ServeLaws.EnvListings` | internal/store/sql.go:349-382 | in either store a listing has exactly the records that asking one by one would show |
| `ServeLaws.SnapshotListings` | internal/store/sql.go:433-476 | the same for snapshots |
| `ServeLaws.SkillListings` | internal/store/sql.go:590-616 | the same for skills |
| `ServeLaws.Ownership` | internal/store/sql.go:268-290 | a user sees exactly what is theirs, the empty user everything |
| `ServeLaws.DestroyLaw` | internal/service/environment.go:195-216 | destroying answers Done exactly for a record the user sees; then nobody sees it, and every other answer is as before |
| `ServeLaws.CreateLaw` | internal/service/environment.go:71-170 | a created environment answers to its owner, running in its container; a failed create leaves every answer as before |
| `ServeLaws.CreateFrame` | internal/service/environment.go:71-170 | a create changes the answers about its own ID only |
| `ServeLaws.UseLaw` | internal/service/exec.go:45-82 | a use that succeeds shows as the last-used time of its record; one that does not changes nothing |
| `ServeLaws.UseFrame` | internal/service/exec.go:45-82 | a use changes the answers about its own ID only |
| `ServeLaws.TakeSnapshotLaw` | internal/service/snapshot.go:39-80 | a snapshot that was taken answers to its owner; errors are those of the environment and change nothing |
| `ServeLaws.TakeSnapshotFrame` | internal/service/snapshot.go:39-80 | taking a snapshot changes the answers about its own ID only |
| `ServeLaws.DropSnapshotLaw` | internal/service/snapshot.go:109-129 | a dropped snapshot answers to nobody, and nothing else changes |
| `ServeLaws.RegisterLaw` | internal/service/skill.go:70-98 | a registered skill answers under the returned ID with the archive, size and time of the registration |
| `ServeLaws.RegisterFrame` | internal/store/sql.go:519-542 | registering changes the answers about the returned ID only |
| `ServeLaws.RegisterIdentity` | internal/store/sql.go:519-542 | if the user had a skill of that name, ID, tenant and creation time are its; otherwise they are new |
| `ServeLaws.DropSkillLaw` | internal/store/sql.go:618-640 | a dropped skill answers to nobody, and nothing else changes |
| `ServeLaws.TidyStays` | internal/store/sql.go:519-542 | what these laws rely on lasts: records under their own IDs, one skill per user and name |
| `ServeLaws.TruncationMeans` | internal/store/sql.go:696-725 | responses that agree after truncation are of one kind and differ in fractions of seconds only |
| `ServeLaws.ServeAllSnoc` | internal/store/sql.go:248-640 | a run answers each request in the state that those before it left |
| `ServeLaws.SameStoryFromNothing` | internal/store/sql.go:248-640 | from empty stores on every response of one store agrees with that of the other |
| `SqlStore.SameStory` | internal/store/sql.go:248-640 | for every sequence of service requests on environments, snapshots and skills, with all their listings, both stores give equal responses up to truncation of times to seconds |
| `SqlStore.ServeSame` | internal/store/sql.go:268-382 | one request keeps the two stores in correspondence and gives the same response |
| `SqlStore.SameUpdate` | internal/store/sql.go:292-318 | SQL `Update`, which leaves image, network policy, tenant and creation time alone, agrees with the memory store's whole replacement |
| `SqlStore.SameRegister` | internal/store/sql.go:519-542 | the SQL upsert agrees with the memory store's search and replace |
| `SqlStore.ExpirySandwich` | internal/store/sql.go:384-401 | what SQL lists as expired is expired exactly, and what is expired exactly is listed by SQL a second later, for all times and timeouts |
| `SqlStore.ExpiryGap` | internal/store/sql.go:384-401 | a record that is expired in memory and not yet in SQL |
| `SqlStore.ReapSandwich` | internal/store/memory.go:113-129 | a SQL reap pass lies between the memory passes of the same moment and of a second before |
| `Rebind.Rebind` | internal/store/sql.go:670-690 | the loop computes the rewriting for PostgreSQL and the identity otherwise |
| `Rebind.RebindMeaning` | internal/store/sql.go:670-690 | binding by number in the output equals binding by position in the input if and only if the query is clean |
| `Rebind.RebindExact` | internal/store/sql.go:670-690 | the same for whole queries, the condition being: no `$` or `?` that an even number of quotes precedes has a digit after it |
| `Rebind.PositionAt` | internal/store/sql.go:676-687 | a `?` with an even number of quotes before it is the next argument, every other character is text |
| `Rebind.QuotedTextPicked` | internal/store/sql.go:676-681 | the quoted text is the quotes and what an odd number of them precedes |
| `Rebind.RebindStable` | internal/store/sql.go:670-690 | text in quotes is unchanged and a second rewriting is the identity, for every query |
| `Rebind.ValueOfDecimal` | internal/store/sql.go:682-684 | the decimal number written into a placeholder reads back as its position |
| `Migration.MigrateAchieves` | internal/store/sql.go:110-179 | after a completed migration every row of environments and snapshots has the tenant it had or else its user, the six indexes exist, PostgreSQL has neither foreign key on the user, and a table that was missing has all columns that the store's statements name |
| `Migration.Migrate` | internal/store/sql.go:110-179 | runs the statements in order and stops at the first that fails |
| `Migration.Converges` | internal/store/sql.go:110-215 | after any number of crashes at any statements, the next full run gives the schema, rows and verdict of one uninterrupted run |
| `Migration.CrashedSnoc` | internal/store/sql.go:110-179 | each start goes on from where the one before it died |
| `Migration.Restart` | internal/store/sql.go:110-179 | the same for one crash |
| `Migration.RunKeeps` | internal/store/sql.go:150-170 | no run loses a row or changes any value but an empty tenant ID |
| `Migration.MigrateSucceeds` | internal/store/sql.go:110-215 | migration completes if and only if the tables found already have the columns it indexes or reads without adding them |
| `Migration.ExecSettles` | internal/store/sql.go:189-215 | a statement that was carried out has nothing left to do |
| `Migration.ExecWellFormed` | internal/store/sql.go:126-148 | no statement leaves an index on a column that does not exist |
| `WsSession.ClosedExactlyOnce` | internal/api/execws.go:141-149 | in every interleaving session and connection are closed at most once, and exactly once, with both pumps done, when the handler has returned |
| `WsSession.SessionEnds` | internal/api/execws.go:154-262 | once a pump or the ping loop gives up, every schedule that is fair to the goroutines that are not blocked returns from the handler, within a number of steps known at that point |
| `WsSession.BothClosesNeeded` | internal/api/execws.go:133-149 | no reachable state after someone gave up leaves everybody blocked, if and only if the shutdown closes both session and connection |
| `WsSession.NothingBlocked` | internal/api/execws.go:201-262 | in every run, after the shutdown a pump that is not done is not blocked on a read or a write, nor the handler once both are done |
| `WsSession.OnlyCloseUnblocks` | internal/api/execws.go:136-140 | of all steps of others only the close of the session ends a wait on the container, and only the close of the connection a wait on the client |
| `WsSession.LeaderRuns` | internal/api/execws.go:141-262 | whoever is to bring the end nearer, inside `closeAll` or after it, is not blocked |
| `WsSession.LeaderSteps` | internal/api/execws.go:141-262 | each step of such a goroutine lowers the measure |
| `WsSession.BoundFalls` | internal/api/execws.go:141-262 | no step raises the measure |
| `WsSession.OpenSessionGoesOn` | internal/api/execws.go:154-190 | a session nobody gives up goes on for any number of steps under a fair schedule, with both pumps blocked throughout |
| `WsSession.OpenConnSticks` | internal/api/execws.go:202-230 | without the close of the connection a run in which the process exits ends with the input pump on its read for good |
| `WsSession.OpenSessionSticks` | internal/api/execws.go:234-260 | without the close of the session a run in which the client leaves ends with the output pump on its read for good |
| `WsSession.StuckStays` | internal/api/execws.go:139-140 | a stuck session stays stuck until the container or the client says something |
| `WsSession.DeliveredOutput` | internal/api/execws.go:201-230 | the client has a prefix of the bytes read, at most one exit message, nothing after it, and with it all bytes read |
| `WsSession.CompleteDelivery` | internal/api/execws.go:206-229 | when the output pump is through and no write failed, the client has everything read and then the exit code |
| `WsSession.ExitCode` | internal/api/execws.go:220-229 | the exit code is asked for at most once, and an exit message carries the answer, or -1 where the query failed |
| `WsSession.ForwardedInput` | internal/api/execws.go:236-259 | the container gets the client's input and sizes in order and without a gap, all of them whenever the input pump waits |
| `WsSession.GivingUpEnds` | internal/api/execws.go:164-249 | every failure that a goroutine notices ends the session |
| `WsSession.NoReadAfterError` | internal/api/execws.go:206-218 | nothing is read after the first read error |
| `KeepAlive.NeverStale` | internal/api/execws.go:173-196 | while a session is live `LastUsedAt` is younger than the period, the session's lag and the other writers' lag together |
| `KeepAlive.IdleTimeoutExact` | internal/api/execws.go:173-196 | no live session is ever idle-expired if and only if the idle timeout covers that bound |
| `KeepAlive.OthersMatter` | internal/service/exec.go:79-82 | the period and the session's own lag alone are not enough |
| `KeepAlive.OnlyExpiryEnds` | internal/store/memory.go:113-129 | with a covering idle timeout only `ExpiresAt` can expire a live session, in both stores |
| `Streams.Reader.ReadFull` | internal/engine/docker.go:523-529 | the wanted bytes and nothing more, however the stream is split, or all that is left |
| `ExecStream.Demux` | internal/engine/docker.go:520-546 | frames and verdict depend on the bytes alone: the frames up to the handler's failure, and success exactly when the stream ends on a frame boundary and the handler never fails |
| `ExecStream.Conservation` | internal/engine/docker.go:520-546 | frames and leftover bytes make up the input, and the leftover does not start with a frame |
| `ExecStream.DemuxInverts` | internal/engine/docker.go:517-546 | demultiplexing encoded frames gives them back, whatever follows |
| `ExecStream.StreamExec` | internal/api/exec.go:71-97 | the client gets a prefix of the frames in order followed by at most one exit event |
| `ExecStream.Collect` | pkg/sdk/client.go:152-175 | the fold yields the joined stdout and stderr payloads and the last exit code |
| `ExecStream.EndToEnd` | pkg/sdk/client.go:152-175 | encoding, demultiplexing and folding yield what was written to each stream and the exit code |
| `ExecStream.ExecEndToEnd` | internal/api/exec.go:71-97 | the same through the three loops, for any splitting of the stream |
| `Paths.CleanPreserves` | internal/service/skill.go:250-253 | cleaning a path never changes where it leads, from any directory |
| `Paths.CleanIdempotent` | internal/service/file.go:164-169 | cleaning twice is cleaning once |
| `Paths.SanitizeResolves` | internal/service/file.go:164-169 | a path is refused exactly for a forbidden character; otherwise the result names the place reached by walking it from the root, has no empty, `.` or `..` component, and is a fixed point |
| `Paths.SplitPathRejoins` | internal/engine/docker.go:478-489 | the file part has no slash; rejoining restores the path if and only if it has a slash and is not a name after exactly two slashes |
| `Paths.SplitSanitized` | internal/engine/docker.go:478-489 | a sanitized path splits into its parent and its last name, and rejoins |
| `Archive.ValidateTar` | internal/service/skill.go:238-265 | accepted exactly if the tar is intact, every entry stays at or below any directory it is unpacked in, none is a link, and one is the manifest right in that directory |
| `Archive.UnsafeIffLeaves` | internal/service/skill.go:250-253 | the textual test on a cleaned name is exact: it fires if and only if some directory is left |
| `Archive.ManifestIffNamed` | internal/service/skill.go:257-259 | a safe name cleans to SKILL.md if and only if it leads there from every directory |
| `Archive.NameIsPattern` | internal/service/skill.go:44 | the name check is the regular expression |
| `Archive.InstallDir` | internal/domain/skill.go:26-28 | a valid name is one path element: the install directory is the child of that name |
| `Install.UnpackLocal` | internal/engine/docker.go:460-476 | unpacking entries that lead below the destination changes nothing outside it |
| `Install.UnpackWrites` | internal/engine/docker.go:460-476 | an unhindered copy puts every entry in place, the last entry for a place deciding |
| `Install.UnpackNothingElse` | internal/engine/docker.go:460-476 | beyond the entries' places only directories on the way to them appear |
| `Install.UnpackStops` | internal/engine/docker.go:460-476 | unpacking stops at the first entry that something is in the way of |
| `Install.UnpackKinds` | internal/engine/docker.go:460-476 | unpacking removes nothing and replaces neither a directory by a file nor a file by a directory |
| `Install.VacantUnhindered` | internal/engine/docker.go:460-476 | an archive without contradictions unpacks without a hitch into a directory that holds nothing |
| `Install.InstallHolds` | internal/service/environment.go:183-191 | what is copied of a skill into such a directory is all there, and nothing else |
| `Install.InstallAllAt` | internal/service/environment.go:175-193 | each skill directory is what its skill alone would make of it, and elsewhere at most the skills directory is created |
| `Install.OrderIndependent` | internal/service/environment.go:181-192 | any two orders of the same skills give the same file system |
| `Skills.InjectionOrder` | internal/service/environment.go:175-193 | for every library of registered skills, user and fixed outcome per skill, the file system does not depend on the order of the listing |
| `Skills.InjectionAfterHistory` | internal/service/environment.go:175-193 | the same after every history of the library, starting from nothing |
| `Skills.InjectSkills` | internal/service/environment.go:175-193 | the loop over the memory store, with the joined path of each skill resolved in the container, gives that file system: every skill's archive, as far as it was copied, is in its own directory, skipped ones left theirs alone, and elsewhere at most the skills directory was made |
| `Skills.ManifestThere` | internal/service/skill.go:238-265 | a skill copied to the end has its SKILL.md right in its directory |
| `Skills.InjectOne` | internal/service/environment.go:182-191 | one turn unpacks the stored archive in the child of its name of the skills directory |
| `Skills.ReadAllMax` | internal/service/file.go:146-159 | the whole stream if it ends properly within the limit, an error otherwise, and nothing at all for the largest limit |
| `Skills.DecompressAndValidate` | internal/service/skill.go:212-234 | the verdict as a function of the uploaded bytes, however they arrive |
| `Skills.AcceptedBound` | internal/service/skill.go:212-234 | an accepted archive is a valid tar of at most twenty times the limit, for every limit |
| `Skills.AcceptedExactly` | internal/service/skill.go:212-234 | where twenty times the limit plus one fits in int64, acceptance is exactly: upload within the limit, proper gzip and tar, and that size |
| `Skills.RegisterSkill` | internal/service/skill.go:70-98 | a rejected upload changes nothing; an accepted one is upserted; every stored skill keeps a valid name, a valid tar and a bounded, correct size |
| `Skills.AlwaysOk` | internal/store/memory.go:199-269 | over any history of registrations and deletions keys are IDs, (user, name) is unique and sizes are right |
| `Skills.AlwaysLibrary` | internal/service/skill.go:70-98 | over any history of accepted registrations and of deletions every stored skill has a valid name, a valid tar and its size, at most twenty times the limit |
| `Skills.SkillHistory` | internal/store/memory.go:199-269 | until it is deleted a skill keeps ID, owner, tenant, name and creation time over any history |
| `Skills.GoneAfterDelete` | internal/store/memory.go:257-269 | a deleted skill is gone until its ID is given out again |
| `Skills.ArchiveHistory` | internal/store/memory.go:199-242 | its archive is the one registered last |
| `Frontmatter.Parse` | internal/service/skill.go:285-310 | the loop gives for each key the value of the last line that has it |
| `Frontmatter.ParseAll` | internal/service/skill.go:285-310 | a head of any lines is read key by key, the last line for a key deciding, whatever other keys there are and whatever body follows |
| `Frontmatter.QuotedRoundTrip` | internal/service/skill.go:302 | values in quotes of either kind come back bare |
| `Frontmatter.RoundTrip` | internal/service/skill.go:285-310 | rendering and parsing is the identity if and only if name and description have no line break and no outer white space or quote, whatever body follows |
| `Frontmatter.ParseRendered` | internal/service/skill.go:285-310 | without line breaks the trimmed values come back |
| `Frontmatter.CrlfShape` | internal/service/skill.go:286 | in the CRLF form every line feed has a carriage return before it |
| `Frontmatter.CrlfSame` | internal/service/skill.go:286 | CRLF line endings give the same result as LF |
| `Ancestry.ImageAllowed` | internal/service/environment.go:245-252 | the search finds exactly the images of the allowlist |
| `Ancestry.AllowlistedAncestry` | internal/service/environment.go:74-90 | with an allowlist, at every point of every interleaving, every environment ever created comes from an allowlisted image through finitely many snapshots, all of one user |
| `Ancestry.SecondGeneration` | internal/service/environment.go:74-83 | some run makes an environment from a snapshot of another one |
| `Ancestry.ExecutionInv` | internal/service/snapshot.go:39-70 | every snapshot record and every operation in flight refers to an image committed from a container of the same user's environment |
| `Ancestry.UnclaimedExplained` | internal/service/snapshot.go:54-129 | at every point of every run, a snapshot image that has no record and is not just being recorded was left behind by an earlier failed deletion of that very image |
| `Ancestry.DeletedForGood` | internal/service/snapshot.go:122-125 | a snapshot whose record was deleted never has one again |
| `Ancestry.TriedLoses` | internal/service/snapshot.go:118-120 | an image that is still there after a deletion was tried has such a failure in its past |

## Left out

- Docker SDK calls, image pulls and interactive attach: foreign calls, oracle steps only.
- HTTP routing, middleware, status codes, request decoding, configuration and logging: one-branch facts.
- MCP server, tool registration and the rest of the clients: thin wrappers.
- JSON encoding and scanner line limits: events carry byte payloads, since the encoder rewrites invalid UTF-8 and the scanner refuses very long lines.
- SHA-256, UUID derivation and key comparison in internal/auth/auth.go: user and tenant IDs are opaque.
- Byte formats of gzip (RFC 1952) and tar, and WebSocket framing and ping/pong (sections 5.5.2 and 5.5.3 of RFC 6455).
- Parsing of `ls` and `find` output, container security and network settings, CPU values beyond their range.
- Symbolic links already present in a container image: an install directory that is a link is not modelled.
- I/O errors of the database in the comparison of the two stores; the lifecycle protocol has them.
- Process crashes in the middle of a saga, other than in migration.
- Archives that contradict themselves or meet files already in their directory: unpacking stops at the entry in the way, and beyond order independence and Install.UnpackKinds nothing is stated about what it leaves.
- `stopCh` and the ticker of the reaper: a pass is one operation that may start at any time.
- The listings by tenant, ListSnapshots and GetSkill as methods of the memory store: covered as values in Isolation and SqlStore.
- What a registry serves for a snapshot tag whose image was deleted.
- Skills.InjectSkills: the outcome of each skill is fixed in advance, as order independence requires.
