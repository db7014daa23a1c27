# Kouplet: the test scheduler, its write-back store and the build attempts

Kouplet is a pair of Kubernetes operators. One runs the tests of `KoupletTest` objects as jobs,
within limits on how many run at once and how many start in a period; the other drives a
`KoupletBuild` through a bounded number of build attempts. Both keep their state in memory and
mirror it in a directory of small files, from which they rebuild it after a restart.

This project models both operators (the copy under `staging/controllers/`) and proves what they
keep true over all runs. Check it with `dafny verify dfyconfig.toml`.

## How the model is laid out

Everything the cluster can do is an input: each visit to a collection receives an arbitrary job
list, arbitrary suite totals, an arbitrary answer to every attempt to create a job, and an arbitrary
amount of time passes before every reading of the clock. Theorems quantify over all of these.

The source changes objects in place, and so do the classes `TestEntry`, `TestCollection`,
`KoupletDB`, `PersistenceContext`, `FilePersistence`, `BuildAttempt` and `BuildStatus`, with the
fields and the loops of the source: lists and maps share their entries, buckets are edited in
place, `Process` loops to a fixpoint. Each method is proved to do to the object graph what a step
function does to its value (`View()`), and the theorems about whole runs are about these step
functions: `DatabaseSteps.Run` for the test operator, `BuildSteps.Steps` for builds; `Lives.Life` and `BuildLives.Life`
add crashes and restarts.

What a single step does is said once more without the step functions, from the fields of the inputs, the
settings with their defaults and the clock: when a test starts (`Starts`), what becomes of a running test and
what its result says (`JobOutcomes`), when a collection is admitted, started, completed and cleaned up after
(`Milestones`), and what every field of a build is after a step (`BuildOutcomes`).

| part | modules |
|---|---|
| vocabulary | `Prelude`, `Text`, `TestModel` |
| one collection | `CollectionSteps` (steps), `CollectionInvariant`, `CollectionProofs`, `RetryChains`, `Starts`, `JobOutcomes`, `Status`, `Junit` |
| the database | `DatabaseSteps` (steps and runs), `DatabaseInvariant`, `Reachable`, `Termination`, `ProcessLoop`, `Milestones`, `Limits`, `StartLedger`, `UniformLimits`, `LongPeriods`, `SubmissionDates` |
| the store | `Keys`, `WriteBack`, `Coverage`, `Resolving`, `Coherence`, `StartTimes`, `NextIds`, `FileStore` |
| restarts | `Reload`, `StoredIds`, `Restarts`, `OldKeys`, `Lives` (runs with crashes) |
| concrete runs | `Examples` |
| the objects | `Records`, `Scheduler`, `Persistence`, `Operator`, `Loading` |
| builds | `BuildSteps`, `BuildProofs`, `BuildOutcomes`, `BuildStore`, `Builds`, `BuildDatabase`, `BuildLives` |

The central invariant of a collection, `CollectionOk`, says: the four buckets are duplicate-free and
list exactly the entries whose bucket field names them; status, bucket and result of an entry agree;
entries are numbered from zero without gaps; a retry points to an older, completed, failed entry with
the same specification, no entry is retried twice, no chain is longer than the retry limit allows;
and a failed entry below that limit has been retried.

The store is a cache turned around: operations only note what has changed, `resolve` writes it.
`Coherent` says that every record of everything in memory either is in the store as it would be
written now or is pending. That the dirty marks are complete is `Coverage.ProcessRecorded`, one
statement about everything `process` can do.

## What the code does that a reader might not expect

- A job that cannot be created counts as a change (kouplettest_models.go:827-837). If the KoupletTest
  was deleted and created again under the same name, its UID never matches and `Process` goes round for
  ever: `ProcessCanGoOnForEver`, and `ReplacedTestGoesOnForEver` for a run that gets there. It ends if and
  only if such rounds are bounded (`ProcessStopsExactlyWhen`), and always when every creation is accepted
  (`AcceptedProcessStops`).
- A retry takes a new id without noting that the collection changed (kouplettest_models.go:1396-1412), so
  the stored `nextTestEntryID` falls behind, by the retries created since the record was last written:
  `StoredIdIsCurrentExactlyWhen`, and `LaggingRunLags` for a run where it does. It is the one field left out
  of coherence. A reloaded collection is in order if and only if its stored id is the number of its stored
  entries; otherwise the next retry overwrites an entry: `ReloadIsOkExactlyWhen`.
- Start times are dropped after an hour, whatever the period of a limit. The limit holds in every run if and
  only if the period is at most an hour: `RunsAreLimitedExactlyWhen`.
- A start time that is added and removed between two resolves stays in the store, because removals are
  carried out first and all values are written at the end: `RemovedStartStaysExactlyWhen`, and
  `ForgettingRunKeepsTheStart` for a run that does this.
- Keys of a collection whose KoupletTest disappears while the operator is down stay in the store until the
  scheduled removal, half an hour after the start (kouplettest_models.go:220-228). Until then they do no harm, and
  it takes away exactly these: `NextIgnores`, `RemovalTakesTheLost`.
- `ListKeysByPrefix` strips every `.txt` from a file name. A key is listed under its own name if and only if
  it contains none: `StripRoundTrip`. The keys of the test operator never do; those of a build do if the
  build's name does, and the build is then not found after a restart: `BuildIsListedExactlyWhen`.
- In a build step the number of attempts and the overall time are checked before success
  (koupletbuild_models.go:415-444), so a success in the last permitted attempt ends as Expired:
  `LastSuccessExpires`, and exactly when a build completes: `CompletesOnExitZero`.
- "Did not start in time" does not ask whether the job has started (koupletbuild_models.go:325-330); the
  model does the same.
- The change of a build from Waiting to Running is not reported, so it may not be stored; from the stored state
  every step is the same: `UnreportedExactlyWhen`, `SavedActsTheSame`.
- Build keys are name, hyphen, UID. UIDs of one length keep them apart; `KeysCollideExactlyWhen` says which
  UIDs do not.
- When a stored build has an unknown state, or its object cannot be fetched for another reason than being gone,
  `load` enters a nil build under its UID (koupletbuild_persistence.go:135-150). The model keeps that case
  (`LoadedNil`).

## What is assumed

- Kubernetes UIDs are 36 characters of hexadecimal digits and hyphens (`IsUid`); so none is a prefix of
  another or begins with `entity-`. Only the removal of old keys needs their canonical form (`IsUuid`).
- Reading and writing files succeeds. `resolve` forgets the pending writes before it writes them
  (kouplettest_persistence.go:385), so a failed write would be lost.
- The clock does not run backwards: time passes by arbitrary non-negative amounts.
- Runs start from the empty database. The lives of `Lives` may stop and start again at any point, provided that each
  time the stored ids are current, no KoupletTest was edited meanwhile, and the keys of collections lost in an earlier
  restart have been removed; what happens to a collection whose stored id lags is `ReloadIsOkExactlyWhen`.
- Where stored start times matter, no two tests start in the same millisecond; the store cannot tell them apart.

## Model

| member | source | states |
|---|---|---|
| `DatabaseInvariant.EveryRunIsOk` | staging/controllers/kouplettest/kouplettest_models.go:47-335 | In every run from the empty database, whatever the cluster answers: the three lists partition the collections and agree with `bucket`, every collection keeps its invariant, and running then waiting collections stand in the order of submission |
| `Reachable.EveryCollectionIsBounded` | staging/controllers/kouplettest/kouplettest_models.go:1263-1419 | In every run the four buckets of every collection are duplicate-free, pairwise disjoint and together exactly its entries, and there are at most tests * (1 + max(0, retries)) entries |
| `Reachable.EveryCompletedTestIsDealtWith` | staging/controllers/kouplettest/kouplettest_models.go:70-96 | In every run, when a collection is among the completed ones, every test of its spec has one linear chain of finished attempts of which all but the last failed, and the last succeeded or sits at the greatest permitted depth |
| `RetryChains.NoTestIsDropped` | staging/controllers/kouplettest/kouplettest_models.go:1371-1425 | The same for one collection: nothing left to do means every test was tried to the end |
| `RetryChains.WalkEndsAtATest` | staging/controllers/kouplettest/kouplettest_models.go:615-634 | Following `retryFromID` from any entry stays inside the collection and ends at the spec test whose specification the entry carries |
| `RetryChains.ChainsAreLinear` | staging/controllers/kouplettest/kouplettest_models.go:1395-1412 | An entry is determined by the spec test at the root of its chain and by its depth: no entry is retried twice |
| `RetryChains.EntriesAreBounded` | staging/controllers/kouplettest/kouplettest_models.go:1394-1412 | The entry count is at most tests * (1 + max(0, retries)) |
| `CollectionInvariant.BucketsPartitionEntries` | staging/controllers/kouplettest/kouplettest_models.go:471-510 | Bucket lists that agree with the bucket fields are together duplicate-free and list exactly the values of `testEntries` |
| `CollectionProofs.ProcessKeepsInvariant` | staging/controllers/kouplettest/kouplettest_models.go:654-699 | Processing a collection keeps partition, shapes, forest and owed retries for any job list, suite and creation answers; without a reported change the collection is the very same |
| `CollectionProofs.FinishKeepsInvariant` | staging/controllers/kouplettest/kouplettest_models.go:1263-1419 | Finishing a running test keeps the invariant; the test is retried exactly when it failed with retries remaining |
| `CollectionProofs.PutBackKeepsInvariant` | staging/controllers/kouplettest/kouplettest_models.go:827-837 | Putting a test back after its job could not be created keeps the invariant |
| `CollectionProofs.StartTestsKeepsInvariant` | staging/controllers/kouplettest/kouplettest_models.go:741-852 | The start loop keeps the invariant through removals in place, put-backs and starts |
| `CollectionProofs.NewCollectionOk` | staging/controllers/kouplettest/kouplettest_models.go:252-295 | A collection just created satisfies the invariant |
| `CollectionProofs.PercentMeansSuccess` | staging/controllers/kouplettest/kouplettest_models.go:1314-1356 | A recorded percentage never exceeds 100, and is 100 exactly when the suite counts tests and none failed or erred |
| `Termination.ProcessWeighs` | staging/controllers/kouplettest/kouplettest_models.go:654-699 | With a waiting entry at depth d weighing 2(R-d+1), a running one one less and a completed one nothing, processing never makes a collection heavier, and makes it lighter exactly when it achieved more than a refused creation |
| `ProcessLoop.RoundFromWeighs` | staging/controllers/kouplettest/kouplettest_models.go:139-182 | The measure of the database (all weights plus the number of waiting collections) never grows in a round and falls exactly in the rounds that change something besides a refused creation |
| `ProcessLoop.ProcessStops` | staging/controllers/kouplettest/kouplettest_models.go:54-68 | Against every cluster, a row of changing rounds is at most as long as the initial measure plus the number of rounds that only failed to create a job |
| `ProcessLoop.ProcessStopsExactlyWhen` | staging/controllers/kouplettest/kouplettest_models.go:54-68 | The loop of Process reaches a round without a change if and only if the rounds that only fail to create a job are bounded |
| `ProcessLoop.AcceptedProcessStops` | staging/controllers/kouplettest/kouplettest_models.go:54-68 | When every attempt to create a job for a running or waiting collection is accepted, whatever else the cluster answers, Process comes to a round without a change within as many rounds as the initial measure |
| `ProcessLoop.ProcessCanGoOnForEver` | staging/controllers/kouplettest/kouplettest_models.go:795-837 | If the KoupletTest was replaced by another of the same name, so that every creation is refused, every round reports a change and none of them achieves anything |
| `Examples.ReplacedTestGoesOnForEver` | staging/controllers/kouplettest/kouplettest_models.go:795-837 | A run from the empty database that gets there: one KoupletTest with one test is submitted, admitted and then replaced by another of the same name; after any number of rounds Process is still busy, and all of them were fruitless |
| `ProcessLoop.RoundKeepsOrder` | staging/controllers/kouplettest/kouplettest_models.go:139-182 | A round leaves running ++ waiting unchanged, and admits a collection only when no running one has a queued test or a retry |
| `Milestones.AdmitsExactlyWhen` | staging/controllers/kouplettest/kouplettest_models.go:139-182 | A round ends with a change of a running collection and the lists as they were; or it admits the first waiting collection, and no running one has a queued test or a retry; or it changes nothing, and one has or no collection waits |
| `Milestones.FirstGetsAStartTime` | staging/controllers/kouplettest/kouplettest_models.go:147-150 | After a round the first running collection has the start time it had, or else the millisecond of the time read after it was processed; no other collection gets one |
| `Milestones.CompletesExactlyWhen` | staging/controllers/kouplettest/kouplettest_models.go:70-96 | At the end of Process a running collection moves to the completed ones if and only if all its entries have finished, with the millisecond of the time as its end time; otherwise it is untouched |
| `Milestones.SettlesExactly` | staging/controllers/kouplettest/kouplettest_models.go:70-96 | The end of Process as a whole: exactly the collections whose object is gone leave, the running ones whose entries have all finished complete, and all others stay as they are |
| `Milestones.NewCollectionIs` | staging/controllers/kouplettest/kouplettest_models.go:258-289 | Every field of a new collection and of each of its entries |
| `Milestones.ForgetsExactlyWhen` | staging/controllers/kouplettest/kouplettest_models.go:413-438 | A start is forgotten, and its removal from the store noted, if and only if it is an hour old or older; the others keep their number and order |
| `Milestones.ForgetsJobExactlyWhen` | staging/controllers/kouplettest/kouplettest_models.go:340-410 | An entry forgets its job if and only if it was processed and the job completed more than two minutes ago; this is noted, and nothing else changes |
| `Milestones.SweepForgetsExactlyWhen` | staging/controllers/kouplettest/kouplettest_models.go:340-410 | After the clean-up of a list of jobs an entry has forgotten its job if and only if one of the jobs did this when it had its turn |
| `Starts.ActiveJobsAreLimited` | staging/controllers/kouplettest/kouplettest_models.go:710-852 | With n the number of jobs in the list that carry the UID of the collection and an entry id and have no completion time, at most max(0, (`maxActiveTests` or 3) * (a positive `numberOfNodes` or 1) - n) tests start, in the order in which they wait |
| `Starts.StartsExactlyWhen` | staging/controllers/kouplettest/kouplettest_models.go:710-852 | A test starts if and only if one waits, n is below that product, fewer starts than nodes lie within the period (or 120 s), and the first job is created: the object fetched by name has the UID of the collection, can be the owner, and creation succeeds. The first in line then runs, with the names of its job and its start on record |
| `Starts.StopsForAReason` | staging/controllers/kouplettest/kouplettest_models.go:741-852 | Starting stops for four reasons only: no test waits any more, the limit on active jobs is filled, the rate forbids a further start, or a job was not created |
| `Limits.StartsFollowTheQueue` | staging/controllers/kouplettest/kouplettest_models.go:741-852 | The tests started are the first of queue ++ retries in list order (a retry only when the queue is empty), and a refused test goes to the back of its own list |
| `StartLedger.EveryStartRespectsItsLimit` | staging/controllers/kouplettest/kouplettest_models.go:440-463 | In every run, each start made under a limit of N in P <= 3600 seconds is at most the N-th of the whole history within the P seconds before it, although old starts are forgotten |
| `UniformLimits.EveryRunIsLimited` | staging/controllers/kouplettest/kouplettest_models.go:413-463 | When all KoupletTests of a run share N and P <= 3600 s, every window of length P, wherever it begins, holds at most N starts of the whole run |
| `StartLedger.EveryWindowIsLimited` | staging/controllers/kouplettest/kouplettest_models.go:440-457 | From starts that respected one common limit at the time they were made to a bound on arbitrary windows |
| `StartLedger.ForgettingIsHarmlessExactlyWhen` | staging/controllers/kouplettest/kouplettest_models.go:413-438 | Dropping starts older than an hour never changes the answer of a later rate check if and only if the period is at most an hour |
| `LongPeriods.RunsAreLimitedExactlyWhen` | staging/controllers/kouplettest/kouplettest_models.go:413-463 | For a limit of N > 0 starts in P seconds: every window of length P of every run whose KoupletTests all have this limit holds at most N starts if and only if P is at most an hour |
| `LongPeriods.EarlyRunExceeds` | staging/controllers/kouplettest/kouplettest_models.go:413-438 | The run for a longer period: N starts, more than an hour on the clock, the end of Process forgets them, and one more test starts inside the period |
| `Coherence.EveryRunIsCoherent` | staging/controllers/kouplettest/kouplettest_persistence.go:354-600 | In every run, every record of every live collection and entry is in the store as memory would write it (`nextTestEntryID` aside) or is pending; and the store holds nothing else but start times |
| `Coherence.SettledAfterProcess` | staging/controllers/kouplettest/kouplettest_persistence.go:354-513 | Whatever came before, after the end of Process the store agrees with memory and nothing is pending |
| `Coherence.SettlingCoheres` | staging/controllers/kouplettest/kouplettest_persistence.go:354-513 | That end also leaves no key of a collection whose KoupletTest is gone |
| `Coverage.ProcessRecorded` | staging/controllers/kouplettest/kouplettest_models.go:839-847 | Everything that processing a collection changes, for any cluster, is covered by the records it puts |
| `WriteBack.RecordedChangeKeeps` | staging/controllers/kouplettest/kouplettest_persistence.go:515-600 | A change of memory whose every part is recorded keeps store and pending writes coherent |
| `Resolving.ResolvingSettles` | staging/controllers/kouplettest/kouplettest_persistence.go:354-513 | Resolving after dropping collections: the store agrees with memory, and exactly the keys of the dropped collections are gone |
| `Resolving.NoKeyIsOld` | staging/controllers/kouplettest/kouplettest_persistence.go:604-648 | On a coherent database the scheduled removal of old keys removes nothing, so no key of a live collection |
| `Resolving.OneWriterPerUpdate` | staging/controllers/kouplettest/kouplettest_persistence.go:408-505 | At most one pending write exists for each update key, so the order in which the map is walked does not matter |
| `Persistence.GatheredIsWritten` | staging/controllers/kouplettest/kouplettest_persistence.go:408-512 | The loop over the pending writes, in any order, gathers exactly the keys and values that resolving writes |
| `Keys.UpdateKeyInjective` | staging/controllers/kouplettest/kouplettest_persistence.go:661-693 | Different (type, collection, entry) records have different dirty keys although UID and id are not separated |
| `Keys.StoreKeyInjective` | staging/controllers/kouplettest/kouplettest_persistence.go:451-494 | Different updates have different store keys |
| `Keys.ChildBelongs` | staging/controllers/kouplettest/kouplettest_persistence.go:387-405 | A child key is found by the deletion prefixes of a UID exactly when it is that collection's |
| `Keys.EntityBelongs` | staging/controllers/kouplettest/kouplettest_persistence.go:387-405 | The same for entity keys |
| `Keys.StartKeyBelongsToNone` | staging/controllers/kouplettest/kouplettest_persistence.go:387-405 | No deletion of a collection finds a start-time key |
| `Keys.ChildPrefixMatches` | staging/controllers/kouplettest/kouplettest_persistence.go:153-264 | Each prefix scan of load finds exactly one family of one collection |
| `Keys.UpdateBelongs` | staging/controllers/kouplettest/kouplettest_persistence.go:387-405 | The key of an update belongs to its own collection and to no other |
| `StartTimes.EveryRunKeepsStartTimes` | staging/controllers/kouplettest/kouplettest_persistence.go:575-593 | In every run stored and pending start times are times of starts; and if no two starts share a millisecond, every remembered one is stored or pending |
| `StartTimes.LoadedStartTimes` | staging/controllers/kouplettest/kouplettest_persistence.go:310-331 | After the end of Process, loading finds only millisecond-truncated start times there were, and every remembered one if no two share a millisecond |
| `StartTimes.StartIsLeftExactlyWhen` | staging/controllers/kouplettest/kouplettest_persistence.go:385-512 | After resolving, a start-time key is in the store if and only if a start of its millisecond was still to be added, or it was stored and no start of its millisecond was to be removed |
| `StartTimes.RemovedStartStaysExactlyWhen` | staging/controllers/kouplettest/kouplettest_persistence.go:444-454 | A start that is to be removed stays in the store if and only if a start of its millisecond is also still to be added: removals come first, all values are written at the end |
| `Examples.ForgettingRunKeepsTheStart` | staging/controllers/kouplettest/kouplettest_models.go:413-438 | A run from the empty database that gets there: a test starts and succeeds, more than an hour passes, and the end of the same Process forgets the start, which no longer is in memory and from then on is in the store |
| `Reload.StoreIsOkAfterProcess` | staging/controllers/kouplettest/kouplettest_persistence.go:354-513 | However a run went, the end of Process leaves a store that load can rebuild from |
| `Reload.BucketsAreTheSame` | staging/controllers/kouplettest/kouplettest_persistence.go:294-307 | Each rebuilt bucket has the members and the length it had before |
| `NextIds.ProcessMarksEntriesOnly` | staging/controllers/kouplettest/kouplettest_models.go:1394-1412 | Processing a collection never records the collection itself, although every retry takes a new id: this is how the stored id falls behind |
| `StoredIds.StoredIdOfRun` | staging/controllers/kouplettest/kouplettest_persistence.go:716-730 | In every run the stored `nextTestEntryID` of a collection is the id it had when its record was last written, and never ahead of the current one |
| `StoredIds.StoredIdIsCurrentExactlyWhen` | staging/controllers/kouplettest/kouplettest_models.go:1394-1412 | In every run the stored id lags by exactly the retries created since the record was last written (after the creation, admission, first start or completion of the collection), and is current if and only if there were none |
| `Examples.LaggingRunLags` | staging/controllers/kouplettest/kouplettest_models.go:1394-1412 | A run from the empty database that lags: a test is started and settled, then fails and is retried, and settled again; the store can be loaded, holds two entries, and says that the next id is 1 |
| `StoredIds.ReloadIsOkExactlyWhen` | staging/controllers/kouplettest/kouplettest_persistence.go:128-143 | A collection reloaded under the same KoupletTest satisfies the whole invariant if and only if the `nextTestEntryID` in its record is the number of its stored entries; when it is less, the next id handed out belongs to an existing entry |
| `Reload.IdInKey` | staging/controllers/kouplettest/kouplettest_persistence.go:219-232 | The id after the last hyphen of a child key is the id of the entry |
| `Reload.ChildKeysAre` | staging/controllers/kouplettest/kouplettest_persistence.go:153-292 | Every key that load finds for a family is the key of an entry of that collection and holds what the entry holds |
| `Reload.EntityKeysAre` | staging/controllers/kouplettest/kouplettest_persistence.go:77-149 | Every entity key is the key of a collection and holds its record, `nextTestEntryID` aside |
| `SubmissionDates.EveryRunIsByDate` | staging/controllers/kouplettest/kouplettest_models.go:252-295 | In every run, running and then waiting collections stand in the order of `dateSubmitted` |
| `Restarts.RestartKeepsOrder` | staging/controllers/kouplettest/kouplettest_persistence.go:336-345 | When no two collections were submitted in the same millisecond, the sorted lists are the running and waiting lists as they were, without the collections that were not found again |
| `Restarts.ComesBackExactlyWhen` | staging/controllers/kouplettest/kouplettest_persistence.go:100-127 | A stored collection comes back if and only if the object now found under the namespace and name of its KoupletTest has its UID |
| `Restarts.RestartIsOkExactlyWhen` | staging/controllers/kouplettest/kouplettest_persistence.go:67-352 | If no KoupletTest was edited meanwhile, the loaded database, apart from keys of collections that were not found again, agrees with its store; and it satisfies every invariant of a run if and only if each stored `nextTestEntryID` is the number of stored entries |
| `OldKeys.NextIgnores` | staging/controllers/kouplettest/kouplettest_persistence.go:354-513 | No step looks at the keys that lost collections have left in the store, or adds to them: it does exactly what it does without them |
| `OldKeys.UpdateContainsOnly` | staging/controllers/kouplettest/kouplettest_persistence.go:622-633 | With UIDs in canonical form, a store key contains the UID of its own collection and no other UID, at any position |
| `OldKeys.RemovalIsExact` | staging/controllers/kouplettest/kouplettest_persistence.go:604-648 | So the scheduled removal takes away every key of a lost collection and nothing else |
| `Lives.StoreOfStoppedRun` | staging/controllers/kouplettest/kouplettest_persistence.go:354-513 | Wherever a run stops, its store is that of the last time it was brought up to date, and load can rebuild from it |
| `Lives.EveryLifeIsOk` | staging/controllers/kouplettest/kouplettest_persistence.go:67-352 | In every sequence of steps, crashes at any point and restarts, in which the operator starts again only from a store whose ids are current: apart from what lost collections have left behind, the database keeps every invariant of a run, and the store can be loaded again |
| `Lives.RemovalTakesTheLost` | staging/controllers/kouplettest/kouplettest_persistence.go:604-648 | At any time of such a life, the scheduled removal takes away exactly the keys of the collections that the last restart did not find |
| `Lives.CompletedIsDealtWith` | staging/controllers/kouplettest/kouplettest_models.go:70-96 | At any time of such a life, every test of a completed collection has been tried to the end |
| `Lives.OrderSurvives` | staging/controllers/kouplettest/kouplettest_persistence.go:336-345 | At every restart of such a life the order in which collections run and wait is kept |
| `Operator.Process` | staging/controllers/kouplettest/kouplettest_models.go:47-102 | Total correctness of Process up to resolve: when refused creations are bounded it ends, in the state of that many rounds followed by settling, with store and memory in agreement |
| `Operator.RunRounds` | staging/controllers/kouplettest/kouplettest_models.go:54-68 | The loop ends after the first round without a change, in the state of exactly that many rounds |
| `Operator.GetOrCreateCollection` | staging/controllers/kouplettest/kouplettest_models.go:252-295 | Returns the one collection held under the UID; a new one is queued in full, last in line and stored, a known one changes nothing |
| `Scheduler.KoupletDB.SubProcess` | staging/controllers/kouplettest/kouplettest_models.go:139-182 | One round on shared, mutable objects: the new state and the reported collection are those of the round on values |
| `Scheduler.KoupletDB.MoveComplete` | staging/controllers/kouplettest/kouplettest_models.go:70-96 | Complete collections are stamped, listed as completed and leave the running list, and old starts are forgotten exactly when one moved |
| `Scheduler.KoupletDB.CleanupOldTestStartTimes` | staging/controllers/kouplettest/kouplettest_models.go:413-438 | Starts of the last hour stay in order; the removal of each other one is recorded |
| `Scheduler.KoupletDB.CanWeRunMoreTests` | staging/controllers/kouplettest/kouplettest_models.go:440-457 | True exactly when fewer than the maximum of remembered starts lie within the period |
| `Scheduler.KoupletDB.CleanupOldTestCollections` | staging/controllers/kouplettest/kouplettest_models.go:302-335 | Exactly the collections whose objects are gone leave the map and all lists, in order, and their deletion is recorded |
| `Scheduler.KoupletDB.CleanupOldJobs` | staging/controllers/kouplettest/kouplettest_models.go:340-410 | An entry forgets its job exactly when it was processed and its job completed over two minutes ago, and that is recorded |
| `Scheduler.KoupletDB.RemoveByUUID` | staging/controllers/kouplettest/kouplettest_models.go:1479-1492 | The list without the collection that has the UID, in order |
| `Scheduler.KoupletDB.CreateCollection` | staging/controllers/kouplettest/kouplettest_models.go:258-289 | A fresh collection joins map and waiting list with one queued entry for each test, and every record of it is pending |
| `Scheduler.KoupletDB.AddToBucketForPersistence` | staging/controllers/kouplettest/kouplettest_models.go:234-249 | A stored collection joins the map and exactly the list its bucket names |
| `Scheduler.TestCollection.Process` | staging/controllers/kouplettest/kouplettest_models.go:654-699 | Collection, clock, starts, history, pending writes and the reported change are those of processing on values |
| `Scheduler.TestCollection.ProcessWaitingTests` | staging/controllers/kouplettest/kouplettest_models.go:702-855 | The start loop in place, including the put-back when a job could not be created: the outcome of which Starts.StartsExactlyWhen and Starts.StopsForAReason speak |
| `Scheduler.TestCollection.StartNext` | staging/controllers/kouplettest/kouplettest_models.go:741-852 | One turn of that loop: nothing to start, refused and put back, or started with its start recorded |
| `Scheduler.TestCollection.TakeWaiting` | staging/controllers/kouplettest/kouplettest_models.go:743-790 | The first waiting queued test, or else the first waiting retry, is taken out of its list in place |
| `Scheduler.TestCollection.ProcessRunningJobs` | staging/controllers/kouplettest/kouplettest_models.go:999-1090 | The loop over the collection's jobs, with expiry, completion and retries: the outcome of which JobOutcomes.ExpiresExactlyWhen and JobOutcomes.CompletesWithItsSuite speak |
| `JobOutcomes.ExpiresExactlyWhen` | staging/controllers/kouplettest/kouplettest_models.go:1038-1083 | A running test whose only job has started and not completed ends as Expired, completed with a result without counts, if and only if the time read for it is later than the start by more than its own timeout, else the default of the KoupletTest, else 3600 s; otherwise it is untouched |
| `JobOutcomes.CompletesWithItsSuite` | staging/controllers/kouplettest/kouplettest_models.go:1092-1366 | A running test whose only job has completed ends as Complete, with a result that names its id, values, labels, retried entry and job, the tests, errors, failures, time and percentage of the one suite in its report (all zero without one), and the stored log and report exactly when there is a storage and they are not empty |
| `JobOutcomes.RetriedExactlyWhen` | staging/controllers/kouplettest/kouplettest_models.go:1358-1419 | A finished test is retried if and only if its result does not count tests without errors and failures, and fewer retries lie behind it than `failureRetries` (or 2) |
| `JobOutcomes.NotStartedGoesOn` | staging/controllers/kouplettest/kouplettest_models.go:999-1038 | A running test whose only job has neither started nor completed is untouched |
| `JobOutcomes.WithoutJobGoesOn` | staging/controllers/kouplettest/kouplettest_models.go:999-1024 | Tests that are finished, or run without a job in the list, are untouched |
| `JobOutcomes.FinishingComesFirst` | staging/controllers/kouplettest/kouplettest_models.go:654-699 | A pass in which a running test finishes starts none; otherwise the pass does what processWaitingTests does |
| `Scheduler.TestCollection.ProcessCompletedJob` | staging/controllers/kouplettest/kouplettest_models.go:1092-1154 | A completed job is processed once: log scan, result, bucket change and possible retry |
| `Scheduler.TestCollection.HandleFinishedRunningTestJob` | staging/controllers/kouplettest/kouplettest_models.go:1263-1419 | The test moves from running to completed with its result, and a failed one is retried, on the shared objects; JobOutcomes.CompletesWithItsSuite and JobOutcomes.RetriedExactlyWhen say with which result and when |
| `Scheduler.TestCollection.NumRetries` | staging/controllers/kouplettest/kouplettest_models.go:1374-1386 | The unbounded walk to the first attempt ends and counts the retries behind an entry |
| `Scheduler.TestCollection.AddToTestEntriesForPersistence` | staging/controllers/kouplettest/kouplettest_models.go:493-510 | A stored entry joins the map and exactly the bucket it names |
| `Scheduler.GetKoupletJobs` | staging/controllers/kouplettest/kouplettest_models.go:963-997 | The jobs with this UID and an integer entry id, in order |
| `Records.PersistenceContext.PutEntry` | staging/controllers/kouplettest/kouplettest_persistence.go:595-600 | A record replaces the one under the same update key and no other |
| `Persistence.ResolvePending` | staging/controllers/kouplettest/kouplettest_persistence.go:354-513 | resolve on the object graph and the file store, walking its maps in any order, leaves the resolved state |
| `Persistence.Marshal` | staging/controllers/kouplettest/kouplettest_persistence.go:420-505 | What a pending update would write now, or nothing if what it is about is gone |
| `Persistence.MarshalCollection` | staging/controllers/kouplettest/kouplettest_persistence.go:716-730 | The record read off the object is the serialization of its value |
| `Persistence.CollectionsToDelete` | staging/controllers/kouplettest/kouplettest_persistence.go:356-363 | Exactly the UIDs with a pending deletion |
| `Persistence.EntriesToProcess` | staging/controllers/kouplettest/kouplettest_persistence.go:365-382 | Exactly the pending writes that are not about one of them |
| `Persistence.TaskRemoveOldDatabaseKeys` | staging/controllers/kouplettest/kouplettest_persistence.go:604-648 | Exactly the collection keys in which no live UID occurs are removed |
| `Loading.Load` | staging/controllers/kouplettest/kouplettest_persistence.go:67-352 | From the store of a settled database: exactly the collections whose KoupletTest still has their UID come back, each rebuilt with equal entries, the stored `nextTestEntryID` and sorted buckets, in the list it was in; lists sorted by submission date; start times those of the store; nothing pending |
| `Loading.LoadTests` | staging/controllers/kouplettest/kouplettest_persistence.go:151-306 | The tests of one collection come back equal, partitioned into the same buckets, each sorted by id |
| `Loading.ReadEntries` | staging/controllers/kouplettest/kouplettest_persistence.go:153-203 | Every shallow record becomes its entry in its bucket, in whatever order the records are met |
| `Loading.ReadSpecs` | staging/controllers/kouplettest/kouplettest_persistence.go:206-257 | Every specification is attached to its own entry by the id in its key |
| `Loading.ReadResults` | staging/controllers/kouplettest/kouplettest_persistence.go:259-292 | Every result is attached to the entry whose id it carries |
| `Loading.ReadStartTimes` | staging/controllers/kouplettest/kouplettest_persistence.go:310-346 | Exactly the times in the start-time keys, sorted |
| `Loading.SortBy` | staging/controllers/kouplettest/kouplettest_persistence.go:294-306 | A sort by key: in order, with the same members and length, and without duplicates if there were none |
| `Status.StatusPercent` | staging/controllers/kouplettest/kouplettest_models.go:533-576 | For n > 0 spec tests, p of them with a successful attempt, the reported percentage is the integer with percent * n <= 100 * p < (percent + 1) * n, in any order of the two maps; for none it is the value of the converted NaN |
| `Status.BestOfAll` | staging/controllers/kouplettest/kouplettest_models.go:530-563 | After all entries, there is one percentage for each spec test, and it is 100 exactly for those with a successful attempt |
| `Status.FirstAttempt` | staging/controllers/kouplettest/kouplettest_models.go:615-634 | The walk ends at the entry that starts the chain |
| `Junit.FindReport` | staging/controllers/kouplettest/kouplettest_models.go:1109-1132 | The loop over the log computes the scan |
| `Junit.ReportIsTheLastSuite` | staging/controllers/kouplettest/kouplettest_models.go:1109-1132 | The report is exactly the lines from the last opening line through the first closing line from there on, or the end of the log |
| `Junit.NoSuiteNoReport` | staging/controllers/kouplettest/kouplettest_models.go:1109-1132 | Without an opening line the report is empty |
| `Junit.SuiteBoundsExist` | staging/controllers/kouplettest/kouplettest_models.go:1109-1132 | With an opening line such a last opening and first closing always exist |
| `Text.LinesRoundTrip` | staging/controllers/kouplettest/kouplettest_models.go:1114-1115 | Splitting a log loses nothing: the lines contain no line break and rejoin to the log |
| `FileStore.FilePersistence.ListKeysByPrefix` | staging/controllers/shared/persistence_file.go:40-63 | The stripped names with the prefix; in a directory of clean names exactly the keys with the prefix, once each |
| `FileStore.FilePersistence.DeleteByKey` | staging/controllers/shared/persistence_file.go:65-78 | Deletes the files of the keys up to the first that has none, and succeeds exactly when all had one |
| `FileStore.FilePersistence.ReadValues` | staging/controllers/shared/persistence_file.go:80-106 | Each key with a file is read under its own name; a key without one is reported under the file name it lacks |
| `FileStore.FilePersistence.WriteValues` | staging/controllers/shared/persistence_file.go:108-133 | Exactly the files of the given keys are created or overwritten |
| `FileStore.StripRoundTrip` | staging/controllers/shared/persistence_file.go:50-58 | Listing gives a key back under its own name if and only if the key does not contain `.txt` |
| `FileStore.WrittenContents` | staging/controllers/shared/persistence_file.go:108-133 | Writing clean keys overwrites the key-value contents key by key |
| `FileStore.AllDeleted` | staging/controllers/shared/persistence_file.go:65-78 | When every key has a file and none is listed twice, all are deleted |
| `BuildProofs.EveryBuildIsOk` | staging/controllers/koupletbuild/koupletbuild_models.go:244-466 | In every run of a new build, even if its specification changes: Completed iff successResult is true, Expired iff it is false, otherwise it is unset and no completed attempt succeeded; completionTime is set exactly in those two states; at most one active attempt, and the i-th attempt is named with number i |
| `BuildProofs.AttemptsAreBounded` | staging/controllers/koupletbuild/koupletbuild_models.go:469-492 | Completed and active attempts together never exceed max(0, the greatest maximum the specification has had) |
| `BuildProofs.StepKeeps` | staging/controllers/koupletbuild/koupletbuild_models.go:388-413 | A step keeps the invariant, and completed attempts are only ever added to |
| `BuildProofs.ScannedSingle` | staging/controllers/koupletbuild/koupletbuild_models.go:272-413 | An active attempt moves to completed exactly once, even when its job is listed twice for removal |
| `BuildProofs.JobNamesNeverRepeat` | staging/controllers/koupletbuild/koupletbuild_models.go:625-629 | No two attempts of a build share a job name |
| `BuildProofs.TerminalIsFinal` | staging/controllers/koupletbuild/koupletbuild_models.go:257-270 | A completed or expired build never changes again |
| `BuildOutcomes.CompletesOnExitZero` | staging/controllers/koupletbuild/koupletbuild_models.go:272-444 | A build that goes on ends Completed if and only if the job of its active attempt is seen finished with exit code 0, completed attempts + 1 are below `maxNumberofBuildAttempts` (or 5), and the clock is not past its creation plus the overall limit (or 7200 s) |
| `BuildOutcomes.ExpiresOnLimits` | staging/controllers/koupletbuild/koupletbuild_models.go:415-423 | It ends Expired if and only if the attempts that are over have reached that maximum or the overall limit has passed |
| `BuildOutcomes.AttemptLeavesExactlyWhen` | staging/controllers/koupletbuild/koupletbuild_models.go:272-413 | The active attempt leaves the active list if and only if its job is missing or finished, or the clock is past its queue time plus the wait limit, or past the start of the job plus the build limit (each or 3600 s); it has then succeeded if and only if the job finished with exit code 0 |
| `BuildOutcomes.StepGives` | staging/controllers/koupletbuild/koupletbuild_models.go:244-466 | Every field of the build and of its attempts after a step, by the state it is left in: recorded times, the new attempt with its name and number, start, completion and success |
| `BuildOutcomes.CreationIsKept` | staging/controllers/koupletbuild/koupletbuild_models.go:495-512 | In every run of a new build the overall time counts from its creation |
| `BuildOutcomes.OtherwiseNothing` | staging/controllers/koupletbuild/koupletbuild_models.go:244-270 | A build that has ended, or whose object cannot be fetched, is untouched |
| `BuildProofs.LastSuccessExpires` | staging/controllers/koupletbuild/koupletbuild_models.go:415-444 | For every build that goes on: a success seen in the last permitted attempt ends it as Expired with successResult false, although it has a successful attempt |
| `BuildProofs.StepDecreases` | staging/controllers/koupletbuild/koupletbuild_models.go:244-466 | Every step that reports a change uses up the measure; one that reports none changes nothing but Waiting to Running |
| `BuildProofs.ProcessStops` | staging/controllers/koupletbuild/koupletbuild_models.go:225-233 | Whatever the cluster answers, at most 5 + 4 * max(0, maximum - completed) steps in a row report a change |
| `BuildProofs.UnreportedExactlyWhen` | staging/controllers/koupletbuild/koupletbuild_models.go:257-259 | The change from Waiting to Running goes unreported iff the first creation fails and neither limit is reached |
| `Builds.BuildStatus.SubProcess` | staging/controllers/koupletbuild/koupletbuild_models.go:244-466 | The step on the object and its attempts, in place: the step of which BuildOutcomes.StepGives and BuildOutcomes.CompletesOnExitZero speak |
| `Builds.BuildStatus.RunSteps` | staging/controllers/koupletbuild/koupletbuild_models.go:216-242 | The loop ends, in the state of exactly the steps up to the first without a change |
| `Builds.BuildStatus.ScanActive` | staging/controllers/koupletbuild/koupletbuild_models.go:272-386 | The scan over the active attempts: what it observes, and which job UIDs it lists for removal, as often as it lists them; BuildOutcomes.AttemptLeavesExactlyWhen says when and with which outcome an attempt is over |
| `Builds.BuildStatus.MoveListed` | staging/controllers/koupletbuild/koupletbuild_models.go:388-413 | Active attempts with a listed job UID move to completed, in order, once each |
| `Builds.BuildStatus.ExpireIfOutOfAttempts` | staging/controllers/koupletbuild/koupletbuild_models.go:469-492 | Expires exactly when the completed attempts have reached the maximum |
| `Builds.BuildStatus.ExpireIfOutOfTime` | staging/controllers/koupletbuild/koupletbuild_models.go:495-528 | Expires exactly when the overall time has passed |
| `BuildDatabase.ProcessBuild` | staging/controllers/koupletbuild/koupletbuild_models.go:216-242 | After process the stored record is the build as it is, or differs only in saying Waiting for Running; no other file changes |
| `BuildDatabase.SavedActsTheSame` | staging/controllers/koupletbuild/koupletbuild_models.go:257-259 | That difference does not matter: from the stored state every step is the same |
| `BuildDatabase.Load` | staging/controllers/koupletbuild/koupletbuild_persistence.go:32-85 | Every record of a directory with one record for each UID becomes its build again; exactly the records whose object is gone are removed |
| `BuildDatabase.CutKeepsOk` | staging/controllers/koupletbuild/koupletbuild_persistence.go:123-167 | A build that was stored and loaded still satisfies the invariant |
| `BuildLives.EveryBuildLifeIsOk` | staging/controllers/koupletbuild/koupletbuild_persistence.go:123-167 | Over any sequence of process calls, crashes and reloads: state, success and completion time agree, at most one attempt is active, attempts are numbered from one and never exceed the greatest maximum the specification has had, and the record stays that of the build |
| `BuildLives.LifePreserves` | staging/controllers/koupletbuild/koupletbuild_persistence.go:123-167 | Over any such sequence completed attempts are only ever added to and keep their jobs and outcomes, and a completed or expired build stays as it is |
| `BuildLives.RestartActsTheSame` | staging/controllers/koupletbuild/koupletbuild_persistence.go:123-167 | After a reload every step is the step of the build that was written, with its times cut off to the millisecond |
| `BuildDatabase.BuildIsListedExactlyWhen` | staging/controllers/shared/persistence_file.go:50-58 | The file of a build is found again under its key if and only if the build's name does not contain `.txt` |
| `BuildStore.JsonRoundTrip` | staging/controllers/koupletbuild/koupletbuild_persistence.go:123-223 | JSON to status to JSON is the identity if and only if no time exceeds 9223372036854 milliseconds in size |
| `BuildStore.BuildRoundTrip` | staging/controllers/koupletbuild/koupletbuild_persistence.go:123-223 | Status to JSON to status is the status with every time cut off to the millisecond |
| `BuildStore.LoadedExactlyWhen` | staging/controllers/koupletbuild/koupletbuild_persistence.go:123-167 | A record becomes a build if and only if its state is one of the four names and the object is found, and is removed if and only if the state is one of these and there is no object |
| `BuildStore.MillisRoundTrip` | staging/controllers/koupletbuild/koupletbuild_persistence.go:279-305 | For one time, with Go's truncating division and 64-bit overflow |
| `BuildStore.TruncatedMonotone` | staging/controllers/koupletbuild/koupletbuild_persistence.go:295-305 | The cut-off keeps the order of times |
| `BuildStore.TruncatedTwice` | staging/controllers/koupletbuild/koupletbuild_persistence.go:295-305 | Cutting off twice is cutting off once |
| `BuildStore.BuildKeyInjective` | staging/controllers/koupletbuild/koupletbuild_persistence.go:255-262 | With UIDs of one length, different builds have different keys, whatever their names |
| `BuildStore.KeysCollideExactlyWhen` | staging/controllers/koupletbuild/koupletbuild_persistence.go:255-262 | Two UIDs can share a key under some names if and only if one of them ends in a hyphen and the other |

## Left out

- Building Kubernetes objects (`createNewKubeJob`, `newContainersFor`), except the labels a job list is filtered by and the number in a build job's name.
- Listing jobs and pods, pod logs, uploads to object storage and the parsing of JUnit XML: their results are inputs. The names of the uploaded objects are inputs as well.
- The text of JSON: records are datatypes, and what cannot be parsed does not occur in a store the operator wrote itself.
- Failing or partial reads and writes of the store, except the deletion of a file that does not exist.
- Rounding in `float32` percentages and in `Duration.Seconds()`: the arithmetic is exact, which agrees with `float32` up to 167772 tests in a suite. A suite or a spec without tests gives the value that converting NaN gives on amd64.
- Overflow of `time.Duration` in the test operator, for periods and timeouts of more than 292 years. The build operator's arithmetic is modelled with its 64-bit wrap-around.
- The last part of `Process`, which writes the status of the changed collections to Kubernetes, and the list of results in that status; the percentage is modelled.
- When the scheduled tasks run. Cleaning up old jobs and removing old keys are steps that may occur at any point of a run.
- `cleanupOldDatabaseEntries` of the build operator, and the status update of a build.
- The copy of the test operator under `kouplet/pkg/controller/`, the Java builder and the log parser.
- Loading.Load: proved for the store of a database that had been settled, which is every store a run leaves (Lives.StoreOfStoppedRun) that holds nothing of lost collections. A collection whose object cannot be fetched because of a transient error is skipped like one that is gone. A start time is a set member without multiplicity.
- Lives.EveryLifeIsOk: nothing is said of how many tests start in a window that contains a restart; stored start times are cut off to the millisecond.
- Loading.SortBy: that elements with equal keys keep their order is not stated; ids in a bucket are distinct, and the collections reach it in the arbitrary order of a directory.
- Status.StatusPercent, Status.FirstAttempt: on the collection as a value, not on the objects.
- Junit.FindReport: on the text of a log, without the fetching around it.
- Scheduler.KoupletDB.CreateCollection: the collection joins the lists after its tests were queued rather than before; nothing looks at it in between.
- FileStore.FilePersistence.ListKeysByPrefix: the order in which a directory is listed is arbitrary, as is the order in which maps are walked.
- BuildDatabase.Load: proved for a directory with one record for each UID, each under its own key, which is what the operator writes. Which of two records with one UID would win depends on the order of a map.
- Operator.Process: requires a bound on the rounds that only fail to create a job, without which it need not end.
- The list of all starts (`history`) and of all submissions (`submitted`) are ghost records of the model.
