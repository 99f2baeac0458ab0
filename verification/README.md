# ArtifactFS: a verified model

ArtifactFS mounts a git repository as a writable filesystem. An immutable snapshot of the tree (the base)
lies under a writable overlay of rows and backing files; blobs are fetched into a cache on demand; a daemon
prepares repositories in the background and swaps snapshots underneath open files. This project models the
parts where those pieces meet and proves what a user of the mount relies on.

`dafny verify dfyconfig.toml` checks everything.

## How it is laid out

- **Overlay and engine.** `Paths` has the key normaliser and `filepath.Dir`. `OverlayState` says what every
  store operation does to the row table and the backing files, with each system call able to fail, and
  `MergedView` what a path then shows. `OverlayStore` and `Engine` are the operations themselves, written as
  the source writes them and proved equal to those functions. `EngineSpec` and `EngineRuns` relate them to a plain map
  from paths to contents. `ReconcileSpec` treats reconciling against a new base, `ReconcileRuns` and `ReconcileRivals`
  what calls in the middle of a reconcile can do to it. `Readdir` lists directories.
- **Hydrator.** `TaskHeap` is the indexed heap with its de-duplication map, `Inflight` the waiter lists with their
  shared backing arrays, `WaitLists` the life of a waiter channel. `Hydrator` is the service as a state machine for any
  number of callers, workers and verifications; `HydratorSafety`, `HydratorFiles` and `HydratorRuns` prove
  what all its runs keep, and `HydratorProgress` that it answers.
- **File-handle cache.** `HandleCache` is `FileHandle.read` against closes, mutations and generation swaps;
  `HandleCacheSafety` proves it coherent.
- **Prepare protocol.** `ReadyGate` is the resettable gate, `Registry` the repository table with its
  compare-and-set, `Prepare` the protocol between the sync loop, the workers, the HEAD watchers and other
  processes, and `PrepareSafety` its proofs.
- **Git plumbing.** `ShellFields` (with `TokenKinds` and `Text`) quotes and splits shell words and turns on ssh batch
  mode; `BatchFraming` and `BatchPool` read `cat-file --batch` and reuse its processes; `TreeIndex` and
  `Snapshot` parse tree listings and publish generations.

Where code changes fields, maps or slices step by step the model is a class, and its methods are proved against
functions about which the lemmas speak. Where several goroutines interleave it is a state machine with one event for each
critical section, file operation or channel operation; theorems then hold for every sequence of enabled events.

## What the code does that one might not expect

Each of these has a lemma at a concrete input, and a lemma for all inputs with the exact condition.

- Promoting a base file `a` destroys an overlay file `a.tmp` (`PromotionClobbersTmpFile`; exact condition in
  `CopyOnWriteExact`).
- Deleting a base file, creating it anew and renaming it away brings the base file back
  (`RenameResurrectsBase`), and renaming a symlink that is still in the base leaves a regular file
  (`RenamedLinkIsFile`; exact conditions for both in `RenameExact`).
- A write that meets "does not exist" while promoting starts over from an empty file (`LostWriteKeepsOneByte`; exact
  condition in `WriteOnTree`).
- A write after a rename turns the row into a plain modification of its new path, so a reconcile against the
  unchanged base drops the edit (`WrittenRenameIsLost`; exact condition in `WrittenRename`).
- `Reconcile`'s comment says that a whiteout is kept while its path is in the base. The code also drops the whiteout that
  a rename left behind when the rename has gone stale (`WhiteoutGoesWithRename`; exact condition in `ChainReconciles`).
- When two files were given one time, as `touch -r` or `tar` does, and one is moved into the place of the other while a
  reconcile is under way, the guarded delete takes the wrong one (`TouchedTwinIsLost`; exact condition in
  `LosableIffRival`).
- A whiteout below a directory makes listings show the directory as a file, or a name that does not resolve
  (`WhiteoutBelowMakesFile`, `ListedWithoutResolving`; what is listed, and as what, in `ReaddirTyped`).
- A call that waits for hydration after `Stop` can go unanswered for ever (`LateCallIsAbandoned`; exact condition in
  `AnswerableIff`).
- Two verifications of one blob can run at once when the only waiter of the first cancels (`VerifiesTwice`; exact
  condition in `VerifiesOnceIff`).
- The batch-mode filter can leave a caller's own `-o batchmode=no` in the command (`FilterCanLeave`,
  `FilterKeepsAttached`; exact condition in `FilterLeaves`).

Beyond a single service: two that fetch one blob into one cache directory, as around a remount, can publish wrong bytes
(`TwoServicesPublishWrongBytes`); one service never does (`StepKeepsTruth`).

## Model

| member | source | states |
|---|---|---|
| Paths.CleanPathIdempotent | internal/model/types.go:124-138 | The key normaliser gives a normal form: normalising a key again changes nothing, whatever string it came from |
| Paths.ChildKey | internal/fusefs/fuse_unix.go:772-774 | Joining a directory key and an entry name and cleaning the result is plain concatenation, and gives a key again |
| Paths.KeyHasParent | internal/snapshot/store.go:235-244 | Every key but the root is a named child of the key that Dir gives, which differs from it |
| Paths.DirShrinks | internal/gitstore/gitstore.go:1271-1282 | Walking up with Dir reaches "." or "/": every other step is strictly shorter, for any string |
| OverlayState.RenamedRowsAre | internal/overlay/store.go:277-301 | After the rename transaction every path's row is known: the new row, the whiteout or nothing at the source, dropped descendant whiteouts, all others as before |
| MergedView.CopyOnWriteExact | internal/overlay/store.go:114-158 | A promotion shows the base bytes at the path; every other path is unchanged and every row keeps its bytes exactly when no live row has the temporary file's name |
| MergedView.CreateFileOnTree | internal/overlay/store.go:160-174 | Creating a file makes an empty file at its path, in place of whatever was visible there, and changes nothing else |
| MergedView.WriteFileOnTree | internal/overlay/store.go:176-199 | A write splices its data into the visible bytes, zero-filling a gap, and changes no other path |
| MergedView.TruncateOnTree | internal/overlay/store.go:201-217 | A truncation cuts or zero-extends the visible bytes and changes no other path |
| MergedView.RemoveOnTree | internal/overlay/store.go:219-227 | Removing hides the path, base node or not, and changes no other path |
| MergedView.MkdirOnTree | internal/overlay/store.go:396-411 | Mkdir makes a directory at its path and changes no other path |
| EngineSpec.WriteOnTree | internal/fusefs/ops.go:83-94 | A successful write through the engine is the splice on the plain map (a missing file starts empty) if and only if the promotion is not lost to "does not exist", or the splices on old and on no bytes coincide |
| EngineSpec.WriteAfterLostPromotion | internal/fusefs/ops.go:83-94 | Whenever a call of the promotion reports "does not exist" and the write succeeds, the data is spliced into an empty file and no other path changes |
| EngineSpec.FailedPromotionIsInvisible | internal/fusefs/ops.go:28-43 | A promotion that fails, at whatever call, changes no row and nothing that the mount shows |
| EngineSpec.SetMtimeKeeps | internal/overlay/store.go:420-450 | The store's SetMtime keeps the invariant, every visible object, the files and all other rows, and sets the stamp |
| EngineSpec.SetMtimeOnTree | internal/fusefs/ops.go:168-192 | Setting a time through the engine, with the promotion or the directory row it makes, shows nothing new on the mount and sets the stamp of that one row |
| EngineSpec.TruncateOpOnTree | internal/fusefs/ops.go:194-201 | A successful truncation through the engine is the resize on the plain map, and the path was a visible file |
| EngineSpec.ReadIsView | internal/fusefs/ops.go:45-61 | Read returns the requested window of the visible object, for rows, base files and whiteouts |
| EngineSpec.RenameExact | internal/fusefs/ops.go:105-148 | What a successful rename does to every path: source hidden if and only if it leaves a whiteout or had no base node, object kept if and only if it was no symlink that loses its kind, every other path unchanged |
| EngineSpec.RenameOnTree | internal/fusefs/ops.go:105-148 | A successful rename is the move on the plain map if and only if those two conditions hold before the call |
| EngineRuns.StepRefines | internal/fusefs/ops.go:83-201 | Every successful engine call is the same operation on the plain map and keeps the store's invariant |
| EngineRuns.RunRefines | internal/fusefs/ops.go:28-201 | Any run of successful writes, creates, truncations, unlinks, mkdirs, renames and time settings leaves the mount showing what the plain map holds |
| EngineRuns.ReadAfterRun | internal/fusefs/ops.go:45-61 | After any such run Read returns windows of the plain map, and every live file row's size is the length of its backing file |
| EngineRuns.PromotionClobbersTmpFile | internal/overlay/store.go:122-150 | A concrete write to a base file that makes an unrelated overlay file vanish |
| EngineRuns.RenameResurrectsBase | internal/overlay/store.go:253-271 | A concrete unlink, create and rename after which the deleted base file is visible again |
| EngineRuns.RenamedLinkIsFile | internal/fusefs/ops.go:105-148 | A concrete rename of a base symlink after which a regular file stands at the new path |
| EngineRuns.LostWriteKeepsOneByte | internal/fusefs/ops.go:83-94 | Concrete writes of one byte to a base file of three, with the object or the directory reported missing: one byte is left |
| OverlayStore.Store.EnsureCopyOnWrite | internal/overlay/store.go:114-158 | The new table, files and result for every fault, as a function of the old |
| OverlayStore.Store.CreateFile | internal/overlay/store.go:160-174 | The new table, files and result for every fault |
| OverlayStore.Store.WriteFile | internal/overlay/store.go:176-199 | The new table, files and result for every fault; a rename row becomes a modify row |
| OverlayStore.Store.Truncate | internal/overlay/store.go:201-217 | The new table, files and result for every fault |
| OverlayStore.Store.Remove | internal/overlay/store.go:219-227 | The new table, files and result for every fault |
| OverlayStore.Store.Mkdir | internal/overlay/store.go:396-411 | The new table, files and result for every fault |
| OverlayStore.Store.SetMtime | internal/overlay/store.go:420-450 | The new table, files and result for every fault, as the function of which SetMtimeKeeps says what it keeps |
| OverlayStore.Store.Rename | internal/overlay/store.go:229-330 | The new state and result for every fault; whenever it fails, in the insert, the move or the mode repair, the table equals its initial value, dropped whiteouts included |
| OverlayStore.Store.RenameAndMarkModifiedFromBase | internal/overlay/store.go:337-375 | The new state and result for every fault; whenever it fails the table equals its initial value |
| OverlayStore.Store.Restore | internal/overlay/store.go:303-330 | The restore statements put back the source row and every dropped whiteout and remove the new row |
| OverlayStore.RestoredIsOld | internal/overlay/store.go:303-330 | Undoing a committed rename transaction this way gives exactly the table before it |
| OverlayStore.RenameKeepsLiveCount | internal/overlay/store.go:229-330 | Success or failure leaves the number of live rows unchanged |
| OverlayStore.RenameAndMarkKeepsLiveCount | internal/overlay/store.go:337-375 | Success or failure leaves the number of live rows unchanged |
| OverlayStore.Store.DirtyCount | internal/overlay/store.go:543-550 | With the whiteouts it makes up all rows, and it is zero if and only if every row is a whiteout |
| OverlayStore.Store.Plan | internal/overlay/store.go:452-499 | The two passes plan exactly the stale rows, as they stand in the table |
| OverlayStore.Store.Commit | internal/overlay/store.go:501-541 | The guarded deletes remove the planned rows that still have their stamp, and only their backing files; a failed transaction changes nothing |
| OverlayStore.Store.Reconcile | internal/overlay/store.go:452-541 | Undisturbed, it removes exactly the rows its rules call stale, the whiteouts of stale renames included |
| ReconcileSpec.KeptIdempotent | internal/overlay/store.go:452-499 | A second reconcile against the same base changes nothing |
| ReconcileSpec.ReconcileOnView | internal/overlay/store.go:452-541 | On the mount a stale row's path shows the base again and every other path is unchanged |
| ReconcileSpec.ChainKeepsSource | internal/overlay/store.go:243-301 | However long a chain of renames, with any calls on other paths between its links, its live row and every whiteout along it name the first base path, and no path occurs twice |
| ReconcileSpec.ChainReconciles | internal/overlay/store.go:461-499 | The end of such a chain survives if and only if the first path still has the row's object in the base; otherwise the whole chain goes, whiteouts included; each whiteout's own condition |
| ReconcileSpec.WhiteoutGoesWithRename | internal/overlay/store.go:458-488 | A concrete whiteout that goes although its path is in the base |
| ReconcileSpec.WrittenRename | internal/overlay/store.go:176-199 | After a write a renamed row survives if and only if the base has the same object at its new path |
| ReconcileSpec.WrittenRenameIsLost | internal/overlay/store.go:461-499 | A concrete rename and edit that a reconcile against the unchanged base throws away |
| ReconcileRuns.RunCarries | internal/overlay/store.go:501-530 | Over any run of operations, a row with one of the planned stamps still holds the bytes that a row with that stamp held at first, and its kind and object name come from that row by moves |
| ReconcileRuns.GuardedDeleteLosesNothing | internal/overlay/store.go:501-530 | With any operations between read and delete, a row the guarded delete removes holds exactly the bytes it held when the plan was made, unless some other row of the table has its stamp, other bytes, and a way to look like it |
| ReconcileRivals.LosableIffRival | internal/overlay/store.go:501-530 | Calls exist that make the guarded delete take other bytes than planned at a path if and only if the planned row has such a rival |
| ReconcileRivals.TouchedTwinIsLost | internal/overlay/store.go:501-530 | A concrete table and two renames between read and delete after which an unplanned file is deleted |
| Readdir.LikePrefix | internal/overlay/store.go:552-562 | The LIKE pattern of ListByPrefix matches every path below the prefix |
| Readdir.Resolver.ReaddirTyped | internal/fusefs/merged.go:125-171 | The listing is strictly sorted; it has a name if and only if its path is not whited out and resolves or has a row below; a child with no row below has ResolvePath's type, any other the type of its last row |
| Readdir.ListedWithoutResolving | internal/fusefs/merged.go:143-165 | A concrete table that lists a name which does not resolve |
| Readdir.WhiteoutBelowMakesFile | internal/fusefs/merged.go:161-162 | A concrete table that lists a base directory as a file |
| Engine.FileEngine.EnsureOverlay | internal/fusefs/ops.go:28-43 | The new overlay and result, as a function of base, overlay and the outcome of hydration |
| Engine.FileEngine.Write | internal/fusefs/ops.go:83-94 | The new overlay and result |
| Engine.FileEngine.Truncate | internal/fusefs/ops.go:194-201 | The new overlay and result |
| Engine.FileEngine.Create | internal/fusefs/ops.go:96-99 | The new overlay and result |
| Engine.FileEngine.Unlink | internal/fusefs/ops.go:101-103 | The new overlay and result |
| Engine.FileEngine.Mkdir | internal/fusefs/ops.go:150-152 | The new overlay and result |
| Engine.FileEngine.SetMtime | internal/fusefs/ops.go:168-192 | The new overlay and result, over every branch |
| Engine.FileEngine.Rename | internal/fusefs/ops.go:105-148 | The new overlay and result, over every branch |
| Engine.FileEngine.Rmdir | internal/fusefs/ops.go:154-166 | Refused, with nothing changed, if and only if some name is listed in the directory; otherwise the directory is removed |
| Engine.FileEngine.Read | internal/fusefs/ops.go:45-61 | The bytes read, as a function of base, overlay and the outcome of hydration |
| TaskHeap.RootFirst | internal/hydrator/hydrator.go:540-545 | The root of a heap is served no later than any task in it |
| TaskHeap.TaskQueue.EnqueueLocked | internal/hydrator/hydrator.go:131-148 | The queue stays a heap in bijection with its keys, every item knowing its slot; an active key is refused and a queued one only gains priority |
| TaskHeap.TaskQueue.HeapPush | internal/hydrator/hydrator.go:550-554 | container/heap Push keeps heap order and slots and adds exactly the item |
| TaskHeap.TaskQueue.HeapFix | internal/hydrator/hydrator.go:136-140 | container/heap Fix restores heap order after any change at one slot and keeps the items |
| TaskHeap.TaskQueue.HeapPop | internal/hydrator/hydrator.go:555-562 | container/heap Pop removes the root, keeping heap order and slots |
| TaskHeap.TaskQueue.PopTask | internal/hydrator/hydrator.go:388-396 | The popped task is best by priority and then enqueue time, and only its key leaves the queue |
| Inflight.WaitMap.Add | internal/hydrator/inflight.go:9-12 | Appends the channel to its key's list, no other list changing, and says whether it is the first |
| Inflight.WaitMap.Remove | internal/hydrator/inflight.go:14-31 | Cuts the first occurrence of the channel out of its list in place, no other list changing; an emptied list leaves the map |
| Inflight.WaitMap.Take | internal/hydrator/inflight.go:33-37 | Hands out the whole list together with its backing array |
| Inflight.WaitMap.CloseAll | internal/hydrator/inflight.go:39-43 | Every list is taken, each once, and the map ends empty; the sends and closes that follow are WaitLists.FlushKeeps |
| Inflight.WaitMap.TakeThenChurn | internal/hydrator/inflight.go:14-37 | A list once taken keeps its contents through any further adds and removes |
| WaitLists.NotifyKeeps | internal/hydrator/inflight.go:45-50 | A send always finds an open channel to which nothing was sent |
| WaitLists.OneResultEach | internal/hydrator/hydrator.go:190-202 | Every channel gets at most one result, is closed exactly when it got it, and until then is in one list or in one notifier's hands unless its call withdrew |
| WaitLists.FinishTellsEveryone | internal/hydrator/hydrator.go:467-473 | Finishing a key tells its result once to every call waiting for it and to no other |
| WaitLists.FlushKeeps | internal/hydrator/hydrator.go:95-103 | Stopping answers and closes every waiting channel and keeps the one-result rule |
| HydratorSafety.StepSchedules | internal/hydrator/hydrator.go:131-446 | Every event keeps: no key both queued and active, each active key served by exactly one worker, every awaited key queued or active, and before Stop a non-empty queue with a stored signal, an owed signal or a worker about to look |
| HydratorSafety.StepKeepsChannels | internal/hydrator/inflight.go:9-50 | Every event keeps the waiter-channel rules for hydrations and for verifications |
| HydratorFiles.PublishFiles | internal/gitstore/gitstore.go:717-751 | What the fetching worker renames into place is the whole object |
| HydratorFiles.StepKeepsFiles | internal/hydrator/hydrator.go:246-353 | Every event, a fetch that is cancelled after its rename included, leaves each temporary file with one writer and turns no good cache file into a bad one |
| HydratorFiles.StepKeepsTruth | internal/hydrator/hydrator.go:246-353 | Every event keeps: verified keys, results told Ok and checks answered ok never name a cache file with other bytes |
| HydratorFiles.TwoServicesPublishWrongBytes | internal/gitstore/gitstore.go:717-751 | Steps of two services over one temporary file, for any object that does not start with a zero byte and any point of interruption, after which the cache file is not the object |
| HydratorRuns.VerifiedNamesRightBytes | internal/hydrator/hydrator.go:246-446 | In every run, from any cache directory, a verified key and a key whose waiter was told Ok has a missing or an exact cache file |
| HydratorRuns.WaitersAreAttended | internal/hydrator/hydrator.go:150-202 | In every run an awaited key is either queued or served by exactly one worker, never both |
| HydratorProgress.NeverAtRest | internal/hydrator/hydrator.go:367-446 | While someone waits, before Stop or after it, and a worker is left, some step of the service is enabled at which nothing fails |
| HydratorProgress.StepRanks | internal/hydrator/hydrator.go:367-446 | Every step of the service itself, failing fetches included, lowers a natural number computed from queue, workers, signals and waiting calls |
| HydratorProgress.EveryFullRunAnswers | internal/hydrator/hydrator.go:367-446 | However the workers interleave and whatever fails, a run of the service alone is no longer than that number, and when it can go no further every call that waited has its one result |
| HydratorProgress.EveryoneCanBeAnswered | internal/hydrator/hydrator.go:150-202 | With a worker left, a finite run of the service alone in which nothing fails answers every waiting call |
| HydratorProgress.AnswerableIff | internal/hydrator/hydrator.go:95-103 | A waiting call can still be answered if and only if Stop has not flushed the lists or some worker has not exited |
| HydratorRuns.AbandonedForGood | internal/hydrator/hydrator.go:95-103 | Once Stop is over and the workers are gone, a waiting call is not answered in any continuation |
| HydratorRuns.LateCallIsAbandoned | internal/hydrator/hydrator.go:150-177 | Such a state is reachable: a concrete run with a call after Stop |
| HydratorRuns.RunAttendsChecks | internal/hydrator/hydrator.go:303-353 | In every run a call that waits for a verification has one under way |
| HydratorRuns.SecondIff | internal/hydrator/hydrator.go:303-317 | Where at most one verification of a key is under way, an event leads to two if and only if it is a call that finds its key unverified and unwaited for while one runs |
| HydratorRuns.VerifiesOnceIff | internal/hydrator/hydrator.go:303-353 | Throughout a run at most one verification of a key is under way if and only if the run has no such call |
| HydratorRuns.WaitedIff | internal/hydrator/hydrator.go:319-353 | Throughout a run every verification has a waiter and is the only one of its key if and only if no cancellation and no Stop takes a last waiter away |
| HydratorRuns.VerifiesTwice | internal/hydrator/hydrator.go:319-325 | A concrete run with two verifications of one key under way |
| HandleCacheSafety.ReadKeepsFiles | internal/fusefs/fuse_unix.go:171-220 | Each step of a read keeps every open file with one keeper, closes only what it keeps and serves from no closed file |
| HandleCacheSafety.ReadStaysClean | internal/fusefs/fuse_unix.go:171-220 | Once a row exists, no step of a read fills or serves from a handle that a mutation has cleaned |
| HandleCacheSafety.RunSafe | internal/fusefs/fuse_unix.go:157-232 | All three families of invariants hold along every run |
| HandleCacheSafety.CacheIsCoherent | internal/fusefs/fuse_unix.go:157-232 | In every interleaving: no file is read after close or closed twice, a cached read serves a generation current during that read, and a read begun after a successful mutation returned is not served from the cache while the row stays |
| HandleCacheSafety.ServedFromItsGeneration | internal/fusefs/fuse_unix.go:171-178 | The file a read serves from was opened for the generation named, by whichever read |
| ReadyGates.ReadyGate.Reset | internal/fusefs/ready_gate.go:62-75 | The new gate: a settled gate gets a new open channel, an unsettled one is left alone |
| ReadyGates.ReadyGate.MarkReady | internal/fusefs/ready_gate.go:77-92 | The new gate, which is ready; its channel is closed unless it was |
| ReadyGates.ReadyGate.MarkFailed | internal/fusefs/ready_gate.go:94-115 | The new gate; a ready gate stays ready, and a nil error becomes the default one |
| ReadyGates.ReadyGate.Enter | internal/fusefs/ready_gate.go:28-42 | The first locked section of Wait: an answer exactly when the gate is settled, and the channel to wait on |
| ReadyGates.ReadyGate.Leave | internal/fusefs/ready_gate.go:50-60 | The last one: the gate's verdict, or the default error when it has none |
| ReadyGates.CallsKeepGate | internal/fusefs/ready_gate.go:62-115 | Never ready and failed at once; a channel is closed exactly while the gate is settled, once, and replaced only when closed |
| ReadyGates.GateIsSound | internal/fusefs/ready_gate.go:19-115 | Over all runs no channel is closed twice, and Wait returns nil only if the gate was ready at a moment during the call |
| ReadyGates.NobodyIsAbandoned | internal/fusefs/ready_gate.go:28-60 | A waiter can be woken if and only if its epoch is over or the gate is settled, and marking the gate either way wakes whoever waits |
| Registry.SamePrepareConfigIsEquality | internal/daemon/daemon.go:269-280 | The fieldwise comparison is equality of the ten prepare fields |
| Registry.Store.AddRepo | internal/registry/registry.go:63-89 | The upsert replaces exactly the row of its id and is refused exactly when another id has the name |
| Registry.Store.UpdatePrepareStateForConfig | internal/registry/registry.go:100-127 | State and error change exactly when id and all ten fields match, and the error says so otherwise |
| Registry.Store.RemoveRepo | internal/registry/registry.go:129-132 | Exactly the rows of that name go |
| Registry.PersistsIffStoredNormal | internal/daemon/daemon.go:282-293 | A worker whose config is found current can persist a state if and only if the row's six paths are set and its fetch ref is set or equals its branch |
| Registry.NormalIsFull | internal/daemon/daemon.go:1306-1332 | Filling in leaves nothing blank, and changes a row if and only if something was, under whatever roots |
| Registry.RowsInFull | internal/daemon/daemon.go:299-341 | From a table without asynchronous rows, no run of registrations, write-backs, prepares, worker updates and removals by any processes stores an asynchronous row with a blank |
| Registry.CurrentWorkersPersist | internal/daemon/daemon.go:886-929 | So a worker that finds its config current can always persist its state |
| Text.TrimSpaceBlank | internal/daemon/daemon.go:289-291 | A string trims to nothing if and only if all its characters are white space |
| Registry.BlankRefNeverPersists | internal/daemon/daemon.go:719-723 | A row with a blank fetch ref, which RowsInFull shows no run to store for a worker, would pass the currency check while no state could be persisted for it |
| PrepareSafety.WorkKeepsShape | internal/daemon/daemon.go:661-696 | Every step of a worker keeps: tokens unique, a live worker of a running runtime registered, no two live workers under one runtime |
| PrepareSafety.SyncKeepsShape | internal/daemon/daemon.go:159-267 | So does every step of the sync loop, of watchers and of other processes |
| PrepareSafety.WorkKeepsTruth | internal/daemon/daemon.go:719-884 | Every step of a worker keeps what workers have earned and what open gates stand for |
| PrepareSafety.OpenGateIsEarned | internal/daemon/daemon.go:841-884 | In every reachable state an open gate belongs to a config that was persisted "ready", and its runtime resolves to a generation published in that config's own store |
| PrepareSafety.MarkIsEarned | internal/daemon/daemon.go:786-884 | When a worker comes to MarkReady, "ready" is persisted for its config, which is the runtime's, and the runtime resolves to the very generation it published |
| PrepareSafety.WorkerChangesOwnRow | internal/daemon/daemon.go:886-929 | A worker changes at most state and error of one row, only while the row's ten fields are its own |
| PrepareSafety.LeavesOnlyItself | internal/daemon/daemon.go:673-680 | A worker that leaves clears no registration but its own |
| PrepareSafety.TokensAreNew | internal/daemon/daemon.go:661-672 | A started worker gets a token larger than every earlier one |
| ShellFields.SplitShellFields | internal/gitstore/gitstore.go:1100-1146 | The loop computes the fields that the character-by-character reading of the text defines |
| ShellFields.QuoteRuns | internal/gitstore/gitstore.go:1156-1199 | Whatever quotes it gets, a quoted word adds itself to the word being read and nothing else |
| ShellFields.SplitJoin | internal/gitstore/gitstore.go:1100-1199 | Splitting the quoted words of any list gives the list back without its empty words |
| ShellFields.SplitIsStable | internal/gitstore/gitstore.go:1100-1199 | Splitting yields no empty word; splitting, quoting and splitting again changes nothing |
| ShellFields.DoubleQuote | internal/gitstore/gitstore.go:1169-1186 | The loop writes each character's rendering, keeping escaped dollar signs together |
| ShellFields.SshBatchModeCommand | internal/gitstore/gitstore.go:1071-1098 | The command splits into the kept input tokens in order ("ssh" if none), then "-o" and "BatchMode=yes" |
| ShellFields.FilterLeaves | internal/gitstore/gitstore.go:1078-1089 | The kept tokens still hold a batch-mode option if and only if some token attaches one to its "-o" in another way than with "=" at once, or a "-o" that stays is separated only by dropped tokens from an option that stays |
| ShellFields.FilterCanLeave | internal/gitstore/gitstore.go:1078-1089 | A concrete token list for which that happens |
| ShellFields.FilterKeepsAttached | internal/gitstore/gitstore.go:1085-1087 | The concrete token "-oBatchMode no", which stays |
| TokenKinds.ScanIsLocal | internal/gitstore/gitstore.go:1078-1089 | The left-to-right filter drops a token by its neighbours alone: a joined option, a "-o" before an option, an option after such a "-o" |
| BatchFraming.ParsePrint | internal/gitstore/gitstore.go:784-806 | Parsing a printed decimal gives the number back |
| BatchFraming.ReadSizeOfResponse | internal/gitstore/gitstore.go:784-806 | A response cut short gives no size, or the object's size and a part of its content |
| BatchFraming.NoWrongBlob | internal/gitstore/gitstore.go:702-782 | However a response is cut short, a blob is got exactly from a whole response, with its exact bytes and the stream at its end |
| BatchPool.Pool.Acquire | internal/gitstore/gitstore.go:586-600 | A process handed out is alive, at a response boundary, and nobody else's |
| BatchPool.Pool.Release | internal/gitstore/gitstore.go:602-615 | Goes back while there is room and it is alive, and is closed otherwise; the pool never exceeds its size |
| BatchPool.Pool.CloseAll | internal/gitstore/gitstore.go:617-624 | Closes every free process and no lent one |
| BatchPool.Pool.SetMaxSize | internal/gitstore/gitstore.go:626-638 | Keeps the first n free processes and closes the others |
| BatchPool.Pool.BlobToCache | internal/gitstore/gitstore.go:451-503 | Whatever happened before, a success delivers exactly the object's bytes; nothing is tried under an expired context; the result for every course of the two attempts; the pool stays valid |
| BatchPool.Pool.ReadBlob | internal/gitstore/gitstore.go:505-555 | The same for ReadBlob, oversize blobs included, and never more than the limit |
| BatchPool.GotExactlyWhenUndisturbed | internal/gitstore/gitstore.go:451-503 | A blob is delivered if and only if git has it and one of the attempts made, each with a free process or a new one, is undisturbed |
| BatchPool.ReadExactlyWhenUndisturbed | internal/gitstore/gitstore.go:505-555 | The same for reading into memory, within the size limits |
| TreeIndex.ReadNullDelimited | internal/gitstore/gitstore.go:323-340 | The loop delivers the non-empty records between NULs, the last with or without one |
| TreeIndex.RecordsComeBack | internal/gitstore/gitstore.go:323-340 | Records without NUL come back exactly, whatever else they hold |
| TreeIndex.TreeRecordComesBack | internal/gitstore/gitstore.go:342-368 | A listed record is parsed into its mode, type, object and whole path, tabs included; submodules give none |
| TreeIndex.AddImplicitDirs | internal/gitstore/gitstore.go:1265-1285 | For any listing: the input stays a prefix, each addition is a directory above a listed path, not listed itself and added once, and every path's directory is listed or a root |
| Snapshot.Store.PublishGeneration | internal/snapshot/store.go:58-100 | Publishing is all or nothing, fails exactly on a repeated path or a database error, takes the next number and leaves the previous generation's rows alone |
| Snapshot.Store.UpdateSizes | internal/snapshot/store.go:172-192 | Exactly the rows of one generation with a named object get their size, or with an error none does; current and previous generation stay as published apart from sizes |
| Snapshot.Store.ListChildren | internal/snapshot/store.go:147-166 | Every node of the generation filed under the cleaned parent is listed once, in strictly increasing path order, and nothing else |
| Snapshot.PublishedTreeHangsTogether | internal/snapshot/store.go:58-166 | After publishing, sizes filled in or not, every path is reached from the root by listing children and is listed under exactly one parent, its directory |

## Left out

- The FUSE wire protocol, attributes, expiry, mounting and unmounting: foreign calls with no invariant of their own.
- The inode table (allocInode, ForgetInode) and directory handles: one short bijection that would add only an easy member.
- Real git, clone, fetch, credentials and redaction: git is a map from object names to contents and a server that answers from it.
- SQLite: tables are maps and a transaction is one update; a restore statement after a failed move is taken to succeed.
- The `repo_state` rows for HEAD, the size-update batcher, `onHEADChanged` beyond publishing and setting a generation, the refresh loop and status.
- Command line, logging, statistics, configuration parsing, priorities of file names, the `fsadapter` and `gitfs` adapters, the worker and scripts.
- Clocks: stamps are a counter that every content change moves on; backoff and timeouts are left open, an operation may fail at any time.
- Hash collisions: a verification says ok exactly if the cache file holds the object's bytes.
- Text is a sequence of Unicode scalars, so bytes that are not UTF-8 are outside the model.
- Keys that begin with "..": CleanPath leaves them alone and the kernel does not send them.
- Partial effects of a failed MkdirAll on the upper directory; an error there leaves the model's directory unchanged.
- EngineRuns.RunRefines: speaks of runs whose calls succeed, because a failed call may leave a changed backing file behind and the code makes no promise about it.
- EngineRuns.StepRefines: asks of a write that promotes that the promotion is not lost; WriteOnTree says what happens when it is.
- ReconcileRuns.GuardedDeleteLosesNothing: speaks of runs of successful calls that set no time to a planned stamp, and of planned stamps in the past; backing files removed after the commit while a new file is created are not covered.
- ReconcileRivals.LosableIffRival: supposes an upper directory in which no file stands where a directory of a row or of the base belongs.
- HydratorProgress.EveryFullRunAnswers: takes a worker's check of a cached file to return; how soon the scheduler runs a step is left open.
- HydratorFiles.StepKeepsTruth: is about one service; what two services over one directory do is shown by TwoServicesPublishWrongBytes and not excluded.
- ShellFields.FilterLeaves: counts no options behind a cluster of ssh's one-letter flags, as in `-vo`.
- HydratorSafety.StepSchedules: a batch of tasks is one event, as in the source, and the heap appears as the map that TaskHeap keeps, popped in any order among equals.
- HydratorFiles.StepKeepsFiles: one repository for one hydrator, as the daemon starts it, so keys and cache paths correspond.
- HandleCacheSafety.CacheIsCoherent: a mutation that fails makes no second round of closes, so it is claimed for successful ones; Create, which closes nothing, is not among the mutations.
- HandleCacheSafety.ReadKeepsFiles: the handle is a value in a state machine and not a class, because its mutex is released in the middle of read and the steps of others come between.
- PrepareSafety.OpenGateIsEarned: one sync loop runs in the daemon, as Start runs it, and the command line works in its own process; several consecutive currency checks are one.
- PrepareSafety.MarkIsEarned: "persisted" means that the compare-and-set succeeded at some earlier moment; another process may have replaced the row since.
- BatchPool.Pool.BlobToCache: calls come one after the other; a process that a concurrent call holds is in `lent`, which no method of the pool touches.
- ReadyGates.ReadyGate.Reset: a nil gate, on which every call does nothing, is not modelled.
