# Shell-operator: a verified model of the event pipeline

Shell-operator runs hooks when objects of a Kubernetes cluster change, when a crontab fires, or on
demand. Between the cluster and a hook there is a pipeline: informers keep a cache of objects and
buffer events while a hook gets its first consistent view (the Synchronization); the unlock replays
the buffer; tasks for one hook are combined and their binding contexts compacted; snapshots are read
again just before the hook runs; and what the hook prints is cut into log records. Beside the
pipeline there are shared structures that are counted or cached: informers shared between monitors,
cron functions shared between hooks, metrics keyed by a hash, runtime parameters with overrides that
expire.

This project models these parts in Dafny and proves what they keep. Each file is a module named after
the component it models.

| file | component |
|---|---|
| `ResourceInformer.dfy` | cache, event buffer and unlock of one informer, at the grain of lock sections and of whole methods |
| `ProxyLogger.dfy` | splitting of a hook's output into log records |
| `HookConfigV1.dfy`, `HookController.dfy`, `CombineBindingContext.dfy` | snapshots shared in groups, refreshing of snapshots, combining of tasks and compaction of contexts |
| `ShellOperator.dfy` | a hook run with retries, and the unlock after a Synchronization |
| `FactoryStore.dfy` | shared informers |
| `Labels.dfy`, `Collector.dfy` | metrics under a growing set of labels |
| `ScheduleManager.dfy` | cron functions and the schedule bindings of many hooks |
| `RuntimeConfig.dfy` | runtime parameters, overrides and change handlers |
| `KubernetesBindings.dfy` | monitors of a hook's bindings and their repair |
| `SynchronizationTasks.dfy` | from enabled bindings through the queue to unlocked monitors |
| `Monitor.dfy` | informers that come and go with namespaces |
| `Common.dfy` | small types and sequence facts |

Code that changes fields step by step is a class whose methods are proved equal to functions on the
old state; laws over runs are lemmas about these functions. Concurrency is modelled by making each
critical section a step and quantifying over all runs of steps. The cluster, the clock, the cron
parser, jq, the JSON parser and the hash function are parameters.

`dafny verify dfyconfig.toml` checks the project.

## Where code and comments differ

The model follows the code. These are the places where a comment or a law one would expect says more
than the code does; each has its lemma.

- `pkg/kube_events_manager/resource_informer.go:418` says that the race with `enableKubeEventCb` is
  fixed. The flag is checked and the buffer appended to under two separate locks, so the race is
  still there (`LostExactlyWhenUnlockSplitsAppend`, `UnlockCanLoseAnEvent`). `getCachedObjects` has a
  similar window (`SnapshotCanLoseAnEvent`).
- `pkg/hook/config/util.go:17` promises unique elements. Elements that the first list has twice stay
  twice (`MergeIsUnion`).
- The comment at `pkg/shell-operator/operator.go:693` says that a Synchronization is not combined
  with an Event. Only the first context of the current task is looked at; a grouped Synchronization
  absorbs Events of its group, and if the run then fails once, the unlock is forgotten
  (`RetryCanForgetUnlock`).
- `pkg/hook/controller/kubernetes_bindings_controller.go:93` calls Enable idempotent and
  self-healing. It is, except that a monitor without a link is replaced while it runs
  (`EnableLeaksIff`, `EnableInsideDisable`).
- `Stop` in `pkg/kube_events_manager/factory.go:298-305` deletes whatever is stored under the index
  when it gets its lock back (`StopEndSafeIff`, `StartInWindowLeaksInformer`).
- `pkg/kube_events_manager/monitor.go:212-218` logs a failed creation and stores the namespace all
  the same, so that it is not tried again (`FailedCreationStays`).

- The cap of 65536 bytes (`pkg/executor/executor.go:284-286`) does not bound all records outside of JSON:
  a longer blank line is handed over in one piece if the JSON behind it has been written already
  (`CapHoldsIff`, `SpacesNewlineBraceExceeds`).
- `Reset` in `pkg/kube_events_manager/factory.go:117-127` cancels informers and does not wait for them, so
  that a Start behind it can have two for one index (`OneExecutesUnlessResetIff`,
  `StartAfterResetDoubles`).
- `SetTemporarily` in `pkg/config/config.go:219-226` deletes an override that would hold longer: when the new
  one expires, the value is not the one that held before it was set (`ExpiredOverrideLeavesNothingIff`,
  `ShortOverrideEndsLongOne`).
- `UpdateLabels` in `pkg/metric/collector.go:126` sorts the names even when there is no new label, and
  leaves the values of unsorted names where they were (`NamesMustBeSortedIff`).

## Model

| member | source | states |
|---|---|---|
| ResourceInformer.EventsAreConserved | pkg/kube_events_manager/resource_informer.go:165-194 | Over every interleaving of lock sections each fired event is, in firing order, discarded by a locked snapshot, buffered, delivered or in the handler's hand; nothing is delivered before the unlock, and replayed events precede live ones |
| ResourceInformer.NothingIsTakenBack | pkg/kube_events_manager/resource_informer.go:182-194 | After the unlock the discarded and replayed events and the reference snapshot are final, and the live events only grow |
| ResourceInformer.LostExactlyWhenUnlockSplitsAppend | pkg/kube_events_manager/resource_informer.go:418-435 | An event is lost to the callback if and only if the unlock falls between the flag check and the append; it is then the only one |
| ResourceInformer.CacheFollowsFiredEvent | pkg/kube_events_manager/resource_informer.go:350-400 | With all event types subscribed, the cache's checksums change exactly as the fired event says, through suppressed updates, filter errors and deletes of unknown objects |
| ResourceInformer.CleanRunsReplay | pkg/kube_events_manager/resource_informer.go:165-194 | At the grain of lock sections, snapshot plus events give the cache as long as no event is buffered between the two sections of a snapshot |
| ResourceInformer.ResetDropsUnseenEventsIffDirty | pkg/kube_events_manager/resource_informer.go:166-178 | A snapshot discards an event it does not contain if and only if one was buffered between its two sections |
| ResourceInformer.UnlockCanLoseAnEvent | pkg/kube_events_manager/resource_informer.go:418-435 | A run in which the unlock splits check and append, and the callback never hears of an object in the cache |
| ResourceInformer.SnapshotCanLoseAnEvent | pkg/kube_events_manager/resource_informer.go:165-180 | A run in which an event is in neither the snapshot nor the buffer |
| ResourceInformer.CallsKeepSound | pkg/kube_events_manager/resource_informer.go:165-437 | Whole methods keep conservation, replay, counters and keys over every run |
| ResourceInformer.ReplayNeedsEveryType | pkg/kube_events_manager/resource_informer.go:402-437 | Replay over all runs of whole methods from every initial list holds if and only if Added, Modified and Deleted are all subscribed |
| ResourceInformer.CountersAgreeAlways | pkg/kube_events_manager/resource_informer.go:554-567 | For every run the since-start counters are the sum of all increments handed out and the pending one, modulo 2^64, and Count is the cache size |
| ResourceInformer.HandledEffect | pkg/kube_events_manager/resource_informer.go:289-437 | The fields, buffer and delivered events after one uninterrupted handleWatchEvent |
| ResourceInformer.CacheAndEventsFollowObjects | pkg/kube_events_manager/resource_informer.go:316-437 | Over every interleaving of lock sections: the cache holds, for each id, the checksum and filter result of the last object whose filter succeeded, unless deleted since, and the full object exactly when it is kept in memory; the fired events are, in order, those of subscribed types for changed objects and deletions, with the results that the filter gave, or for a deletion with a failing filter the cached result |
| ResourceInformer.ListedAsAdded | pkg/kube_events_manager/resource_informer.go:225-271 | The initial list is taken if and only if every filter succeeds; the cache then is what watching each object being added would have left |
| ResourceInformer.CountersCountEvents | pkg/kube_events_manager/resource_informer.go:358-400 | Over every run the counters grow by the number of handled Added, Modified and Deleted events and of deletions that empty the cache, modulo 2^64 |
| ResourceInformer.ResourceInformer.LoadExistedObjects | pkg/kube_events_manager/resource_informer.go:198-271 | The initial list fills the cache only if every filter succeeds |
| ResourceInformer.ResourceInformer.HandleWatchEvent | pkg/kube_events_manager/resource_informer.go:289-437 | Refines the whole-method step and keeps the replay invariant |
| ResourceInformer.ResourceInformer.HandleFiltered | pkg/kube_events_manager/resource_informer.go:325-437 | New cache, counters, buffer and sent events, with suppression and the deletion of a cached object whose filter fails |
| ResourceInformer.ResourceInformer.GetCachedObjects | pkg/kube_events_manager/resource_informer.go:165-180 | Returns every cached object; while locked it makes the cache the reference and empties the buffer |
| ResourceInformer.ResourceInformer.EnableKubeEventCb | pkg/kube_events_manager/resource_informer.go:182-194 | Sends the buffered events once, in order, and opens the gate |
| ResourceInformer.ResourceInformer.GetCachedObjectsInfoIncrement | pkg/kube_events_manager/resource_informer.go:561-567 | Hands the increment out and resets it |
| ProxyLogger.StreamIsConserved | pkg/executor/executor.go:279-299 | Records and remaining buffer are, byte for byte, what was written, for every chunking |
| ProxyLogger.OutputIsWholeStream | pkg/executor/executor.go:310-319 | After flush the records are the whole stream and nothing is pending |
| ProxyLogger.BufferAfterDrain | pkg/executor/executor.go:282-293 | After a Write the buffer has no newline and is below 65536 bytes unless JSON is pending |
| ProxyLogger.TextRecordsFitTheCap | pkg/executor/executor.go:279-345 | For every chunking, no record with text that is handed over outside of JSON exceeds 65536 bytes, and the log is a function of the records |
| ProxyLogger.CapHoldsIff | pkg/executor/executor.go:279-345 | No chunking of a stream hands over a record of more than 65536 bytes outside of JSON, blank ones included, if and only if no record of the stream, on any way to cut it, starts with a longer blank line in front of a JSON opener |
| ProxyLogger.OnlyAmbiguousExceed | pkg/executor/executor.go:279-307 | Only ambiguous streams can exceed the cap |
| ProxyLogger.SpacesNewlineBraceExceeds | pkg/executor/executor.go:283-286 | One Write of 65536 spaces, a newline and an opening brace hands over a blank record of 65537 bytes |
| ProxyLogger.CutIgnoresTheFuture | pkg/executor/executor.go:283-286 | A cut decided on a part of the stream is the cut of the whole stream |
| ProxyLogger.ChunkingIndependence | pkg/executor/executor.go:279-345 | All ways of splitting a stream into Write calls give the same records if and only if no record starts with 65536 blanks in one line in front of a JSON opener |
| ProxyLogger.WholeLogIsIndependent | pkg/executor/executor.go:279-345 | In that case everything that reaches the log is the same |
| ProxyLogger.EveryPieceIsLogged | pkg/executor/executor.go:279-369 | Nothing printed is lost: for every chunking the stream is cut into pieces that concatenate to it, and the log is, in order, each piece that is not just white space, as a document if it is one, else with its own text |
| ProxyLogger.CollectedIff | pkg/executor/executor.go:327-345 | A record is collected without being logged if and only if what is there with it is an incomplete document, and one is being collected or the trimmed record begins with "{", or with "[" or a quote when JSON is proxied |
| ProxyLogger.TextOfLine | pkg/executor/executor.go:347-353 | The text of a line is the line without the white space at its ends, its first 10000 bytes and ":truncated" if it is longer |
| ProxyLogger.SpaceRuneIsUnicodeSpace | pkg/executor/executor.go:322-322 | White space is exactly the UTF-8 encodings of the code points with the property White_Space |
| ProxyLogger.AmbiguousStreamsDiverge | pkg/executor/executor.go:301-307 | Otherwise it gives the split after which the records differ |
| ProxyLogger.OnlyLongBlankRunsAreAmbiguous | pkg/executor/executor.go:284-286 | An ambiguous stream contains 65536 blanks in a row |
| ProxyLogger.SpacesThenBraceIsAmbiguous | pkg/executor/executor.go:301-307 | 65536 spaces and an opening brace are ambiguous |
| ProxyLogger.FlushIsIdempotent | pkg/executor/executor.go:310-319 | A second flush logs nothing |
| ProxyLogger.ProxyLogger.Write | pkg/executor/executor.go:279-299 | Terminates, refines the specification, conserves bytes and bounds the buffer |
| ProxyLogger.ProxyLogger.LogLine | pkg/executor/executor.go:321-354 | Collects a document, logs it whole, logs a line trimmed and cut off after 10000 bytes, or ignores a blank one |
| ProxyLogger.TrimSpaceStarts | pkg/executor/executor.go:322-328 | Trimming the right end of a record changes neither whether it is blank nor whether it opens a document |
| ProxyLogger.ProxyLogger.Flush | pkg/executor/executor.go:310-319 | Logs the rest and leaves both buffers empty |
| HookConfigV1.MergeIsUnion | pkg/hook/config/util.go:17-37 | The merge keeps the first list as a prefix and has the union of elements; they are unique if and only if the first list's are |
| HookConfigV1.MergeKeepsOrder | pkg/hook/config/util.go:19-37 | The order is kept: the first list as it is, then what the second adds, by first occurrence |
| HookConfigV1.MergeArrays | pkg/hook/config/util.go:20-37 | The loop over the map computes that merge |
| HookConfigV1.GroupSharesSnapshots | pkg/hook/config/config_v1.go:260-315 | After conversion every binding of a group keeps its name and its own list and includes each kubernetes binding of the group, and nothing else is added; an ungrouped binding is unchanged |
| HookConfigV1.MergeGroupSnapshots | pkg/hook/config/config_v1.go:272-279 | One of the five merging loops |
| HookConfigV1.ConvertGroups | pkg/hook/config/config_v1.go:260-315 | All loops together give the converted configuration |
| HookController.RefreshedContextsAgree | pkg/hook/controller/hook_controller.go:368-407 | Copies of one binding's snapshot are equal in all contexts of a result, and a Synchronization's objects are every copy of its own snapshot |
| HookController.SnapshotsFollowConfig | pkg/hook/controller/hook_controller.go:317-407 | With unique names in each list of the config, contexts of each binding of each type get the snapshots the binding includes and those of the kubernetes bindings of its group, and no others; contexts of OnStartup get none |
| HookController.SnapshotsAreAnswers | pkg/hook/controller/hook_controller.go:368-407 | Every snapshot of a refreshed context, and the objects of a Synchronization, are the answer of a call that this refresh made; all other fields are as before |
| HookController.HookController.UpdateSnapshots | pkg/hook/controller/hook_controller.go:368-407 | Even if each read returns something else, all contexts are refreshed from one cache, each binding is read at most once, and length, order and other fields stay |
| HookController.HookController.IncludedSnapshots | pkg/hook/controller/hook_controller.go:383-393 | One entry for each included binding and no other, empty when there is no monitor |
| CombineBindingContext.CompactionKeepsLastOfEachRun | pkg/shell-operator/combine_binding_context.go:102-116 | Compaction keeps each ungrouped context and exactly the last of each maximal run of a group |
| CombineBindingContext.CompactionNormalForm | pkg/shell-operator/combine_binding_context.go:102-116 | No two neighbours of the result share a group, and compacting again changes nothing |
| CombineBindingContext.CompactInSteps | pkg/shell-operator/combine_binding_context.go:102-116 | Compacting early and combining later gives the same result |
| CombineBindingContext.RepresentedByEndOfRun | pkg/shell-operator/combine_binding_context.go:102-116 | Each dropped context is represented by the context at the end of its run, at a known position |
| CombineBindingContext.CompactionKeepsGroupDataIff | pkg/shell-operator/combine_binding_context.go:102-116 | A retained context has snapshots of all kubernetes bindings of a dropped context's group, for all contexts a hook can get, if and only if the first binding found under each grouped name includes the group |
| CombineBindingContext.UniqueNamesKeepGroupData | pkg/hook/controller/hook_controller.go:317-366 | Unique binding names are enough for that |
| CombineBindingContext.UnnamedBindingsCanLoseGroupData | pkg/hook/controller/hook_controller.go:317-366 | Two kubernetes bindings with the default name lose a group's snapshots |
| CombineBindingContext.AbsorbedIsLongestRun | pkg/shell-operator/operator.go:840-881 | The absorbed tasks are a prefix of the other tasks, and one at the front is absorbed if and only if it has metadata, the hook name and the task type of the current one, and the stop function, if any, does not object |
| CombineBindingContext.CollectedInOrder | pkg/shell-operator/combine_binding_context.go:78-92 | Contexts and monitor ids collected are those of the absorbed tasks, one after the other |
| CombineBindingContext.NilStopIsPrivateVersion | pkg/shell-operator/operator.go:867-874 | The exported variant with a nil stop function absorbs the same tasks |
| CombineBindingContext.QueueAfterCombine | pkg/shell-operator/combine_binding_context.go:39-100 | Exact effect on the queue with distinct ids: of the scanned part only the current task stays; what follows and what was appended later is untouched |
| CombineBindingContext.HeadAfterCombine | pkg/shell-operator/combine_binding_context.go:39-100 | With the current task at the head exactly the run behind it is removed |
| CombineBindingContext.TaskQueue.DeleteFunc | pkg/task/queue/task_storage.go:236-250 | An order-keeping filter |
| CombineBindingContext.Compact | pkg/shell-operator/combine_binding_context.go:102-116 | The loop computes the compaction |
| CombineBindingContext.CollectTasks | pkg/shell-operator/combine_binding_context.go:39-66 | The scan collects the absorbed tasks |
| CombineBindingContext.CollectTasksUntil | pkg/shell-operator/operator.go:849-878 | The scan of the exported variant |
| CombineBindingContext.CombineBindingContextForHookPrivate | pkg/shell-operator/combine_binding_context.go:27-134 | In-order concatenation of contexts, compacted, and of monitor IDs; nil when there is nothing to combine; exact new content of the queue that the task names, whichever queue was scanned |
| CombineBindingContext.CombineBindingContextForHook | pkg/shell-operator/operator.go:836-941 | The same for the exported variant |
| ShellOperator.AttemptAbsorbs | pkg/shell-operator/operator.go:692-712 | One attempt: what leaves the queue is what is absorbed, in order; the task takes over contexts, compacted, and monitor IDs |
| ShellOperator.AttemptsCollect | pkg/shell-operator/operator.go:692-712 | Over any number of attempts the contexts are those of everything absorbed, compacted as if combined at once, and all monitor IDs are collected |
| ShellOperator.TasksAreConserved | pkg/shell-operator/operator.go:692-712 | No task is lost over any number of attempts |
| ShellOperator.AbsorbsExactly | pkg/shell-operator/operator.go:675-713 | After any number of attempts, the next one absorbs nothing if it is interrupted, the config is not v1, or the Synchronization at the front is not run or not grouped; otherwise exactly the longest run of tasks at the head of the queue with metadata, the hook and the type of the task |
| ShellOperator.AbsorbedAreOfTheHook | pkg/shell-operator/combine_binding_context.go:42-71 | No run of attempts absorbs a task of another hook or of another type |
| ShellOperator.StatusExactly | pkg/shell-operator/operator.go:644-747 | After any number of attempts, the next one is repeated if and only if it is interrupted, and fails if and only if the hook fails without being allowed to, unless a Synchronization at the front is not run: of a v0 hook, or of a binding that opted out |
| ShellOperator.NoUnlockBeforeSuccess | pkg/shell-operator/operator.go:749-755 | Nothing is unlocked on Fail or Repeat |
| ShellOperator.UnlockedOnSuccess | pkg/shell-operator/operator.go:679-755 | On the first success all collected monitor IDs are unlocked exactly if the first run of the contexts collected by the failed attempts ends in a Synchronization; otherwise none is |
| ShellOperator.NoMonitorLeftLocked | pkg/shell-operator/operator.go:679-755 | When only Synchronizations are absorbed, every monitor of the task and of all absorbed tasks is unlocked |
| ShellOperator.RetryCanForgetUnlock | pkg/shell-operator/operator.go:679-755 | A grouped Synchronization that absorbs an Event and fails once unlocks nothing in the end |
| ShellOperator.ShellOperator.TaskHandleHookRun | pkg/shell-operator/operator.go:631-758 | Status, queue, metadata and unlocked monitors of one attempt; Fail and nothing else without metadata or hook |
| FactoryStore.RunKeepsInv | pkg/kube_events_manager/factory.go:117-318 | Over every run of lock sections and informer deaths, with no Start in the window of a Stop for its index: informers that execute and were not cancelled are in the store under their index with a consumer, and registrations are those of the last Start |
| FactoryStore.OneInformerPerIndex | pkg/kube_events_manager/factory.go:143-179 | At most one informer per index executes and was not cancelled |
| FactoryStore.OneExecutesIff | pkg/kube_events_manager/factory.go:117-318 | Over every run, at most one informer per index executes at any time, cancelled or not, if and only if no Start is successful while one executes that the store does not know |
| FactoryStore.OneExecutesUnlessResetIff | pkg/kube_events_manager/factory.go:117-127 | With no Start in the window of a Stop: at most one executes per index at any time, if and only if no Start for the index is successful before the informer that a Reset cancelled has exited |
| FactoryStore.OnlyResetLeavesLingering | pkg/kube_events_manager/factory.go:117-127 | Outside of these windows only Reset makes the store forget an informer that executes |
| FactoryStore.StartAfterResetDoubles | pkg/kube_events_manager/factory.go:117-127 | Start, Reset, Start leaves two informers for one index executing |
| FactoryStore.StrangersCannotStop | pkg/kube_events_manager/factory.go:269-290 | Stop of an unknown consumer, or of one whose dead factory was replaced, changes nothing for others |
| FactoryStore.LastStopCancels | pkg/kube_events_manager/factory.go:278-314 | Stop cancels a factory if and only if no other consumer holds it, and touches no other |
| FactoryStore.StartGivesLiveInformer | pkg/kube_events_manager/factory.go:181-248 | After Start the consumer holds an informer that executes and was not cancelled; a live one is shared, a dead one replaced |
| FactoryStore.RunServesUsers | pkg/kube_events_manager/factory.go:187-314 | Over every run outside of the windows the consumers registered for an index are exactly those that the run says: started successfully and not stopped, reset, or left with a dead informer since |
| FactoryStore.CancelledExactly | pkg/kube_events_manager/factory.go:187-314 | After every run from the empty store a step cancels an informer if and only if it is a Reset, replaces the dead one, or stops the only consumer that the run left |
| FactoryStore.StartLeavesOthers | pkg/kube_events_manager/factory.go:187-252 | A Start leaves every other consumer with its factory, whose informer is neither cancelled nor restarted, unless that one is dead |
| FactoryStore.StopEndSafeIff | pkg/kube_events_manager/factory.go:304-305 | The deletion at the end of Stop is safe if and only if the factory it deletes does not run |
| FactoryStore.StartInWindowLeaksInformer | pkg/kube_events_manager/factory.go:298-305 | A Start in the window has its running informer deleted from the store |
| FactoryStore.StartAfterWindowDoubles | pkg/kube_events_manager/factory.go:298-305 | The next Start then makes a second running informer for the index |
| FactoryStore.StoppedKeepsInv | pkg/kube_events_manager/factory.go:269-318 | Stop without interruption keeps the invariant |
| FactoryStore.FactoryStore.Start | pkg/kube_events_manager/factory.go:181-267 | Registers with the usable factory and starts it once, or, when the handler cannot be added, only replaces a dead factory; keeps the invariant |
| FactoryStore.FactoryStore.GetUsable | pkg/kube_events_manager/factory.go:184-211 | The stored factory, a new one if there is none, or a new one in place of a cancelled dead one |
| FactoryStore.FactoryStore.Stop | pkg/kube_events_manager/factory.go:269-318 | Without interruption: unregisters, and after the last consumer cancels, waits and deletes; keeps the invariant |
| FactoryStore.FactoryStore.Reset | pkg/kube_events_manager/factory.go:117-127 | Cancels every stored factory and forgets it |
| Labels.SortSorts | pkg/metric/collector.go:126-126 | sort.Strings gives a sorted permutation and leaves a sorted list alone |
| Labels.AssignmentRoundTrip | pkg/utils/labels/labels.go:45-51 | Lists of values for given names and label assignments, with missing the same as empty, are in one-to-one correspondence |
| Labels.ValuesRoundTrip | pkg/utils/labels/labels.go:45-51 | The other direction: values taken from labels stand for what the names can express of them |
| Labels.EncodingIsInjective | pkg/metric/collector.go:289-298 | Different values without byte 255 are hashed from different bytes |
| Labels.SeparatorInValueCollides | pkg/metric/collector.go:289-298 | With byte 255 in a value they can coincide |
| Collector.RepresentedOnce | pkg/metric/collector.go:33-40 | The collection determines the map it stands for |
| Collector.AddRefinesIff | pkg/metric/collector.go:56-76 | Add is the map's add if and only if the hash does not collide with other stored values |
| Collector.ExpireRefines | pkg/metric/collector.go:105-114 | ExpireGroupMetrics removes exactly the group's entries of the map |
| Collector.UpdatedNamesAreSorted | pkg/metric/collector.go:120-126 | The names become the sorted union, also of unsorted names; without duplicates if and only if no new label is given twice |
| Collector.UpdateRefinesIff | pkg/metric/collector.go:118-162 | UpdateLabels changes no entry of the map if and only if re-keying makes no two metrics collide; when it brings no new label, for sorted names |
| Collector.CollectorRefinesMap | pkg/metric/collector.go:56-162 | Any sequence of Add, ExpireGroupMetrics and UpdateLabels whose steps meet no collision behaves as a map from label assignments to sum and group |
| Collector.ValuesAddUp | pkg/metric/collector.go:56-76 | An entry of that map is the sum, modulo 2^64, of all values added for its assignment, and keeps its first group, until this group expires |
| Collector.EntriesComeAndGo | pkg/metric/collector.go:56-114 | Only an Add makes an entry, with its value and group, and only the expiry of its group drops it |
| Collector.RunRefinesIff | pkg/metric/collector.go:56-162 | A run of a new collector with sorted names behaves as that map all the time if and only if no new label is given twice in one UpdateLabels and at no time two assignments of the map, under the names of that time, share a hash |
| Collector.RunRefinesIffSeparated | pkg/metric/collector.go:289-298 | Without byte 255 in added label values the same, for a hash that separates the byte strings stored at one time |
| Collector.StepIsClean | pkg/metric/collector.go:56-162 | A step from a state that stands for the map meets no collision, if no two assignments share a hash and no new label is given twice |
| Collector.NamesMustBeSortedIff | pkg/metric/collector.go:126-128 | UpdateLabels without a new label keeps the entries of every collection if and only if the names are sorted |
| Collector.ConstCounterCollector.Add | pkg/metric/collector.go:56-76 | Exactly the add whose meaning is AddRefinesIff; a stored metric keeps its labels and group |
| Collector.ConstCounterCollector.ExpireGroupMetrics | pkg/metric/collector.go:105-114 | Deleting during iteration leaves exactly the metrics of other groups |
| Collector.ConstCounterCollector.UpdateLabels | pkg/metric/collector.go:118-162 | For every iteration order of the collection: sorted names; each old metric has its new hash stored, and what is stored are old metrics with empty new labels |
| ScheduleManager.RunKeepsInv | pkg/schedule_manager/schedule_manager.go:92-158 | Over any interleaving of Enable and Disable by many hooks, binding by binding, the manager knows exactly the linked bindings with a valid crontab |
| ScheduleManager.ArmedIffHandled | pkg/hook/controller/schedule_bindings_controller.go:66-75 | A crontab fires if and only if cron can parse it and some hook's CanHandleEvent accepts it |
| ScheduleManager.OneFunctionPerCrontab | pkg/schedule_manager/schedule_manager.go:103-157 | A valid crontab has exactly one cron function while it has a live id, and none otherwise |
| ScheduleManager.LinksFollowCalls | pkg/hook/controller/schedule_bindings_controller.go:106-129 | Over every run of calls by all hooks a binding is linked if and only if its own last call enabled it, with its own settings in the link |
| ScheduleManager.ArmedByCalls | pkg/schedule_manager/schedule_manager.go:92-158 | A crontab fires if and only if it is not empty, cron can parse it, and some binding with it, of any hook, was enabled by its own last call |
| ScheduleManager.SharedIdDisarms | pkg/schedule_manager/schedule_manager.go:124-157 | With a shared id, disabling one hook disarms the other |
| ScheduleManager.ScheduleManager.Add | pkg/schedule_manager/schedule_manager.go:92-130 | Installs a function for a new valid crontab, adds the id to a known one, and ignores empty and invalid ones |
| ScheduleManager.ScheduleManager.Remove | pkg/schedule_manager/schedule_manager.go:132-158 | Removes the id, with the function after the last id; an unknown crontab or id changes nothing |
| ScheduleManager.ScheduleBindingsController.EnableScheduleBindings | pkg/hook/controller/schedule_bindings_controller.go:106-120 | Is one Enable step for each binding, in order |
| ScheduleManager.ScheduleBindingsController.DisableScheduleBindings | pkg/hook/controller/schedule_bindings_controller.go:122-129 | Is one Disable step for each binding, in order |
| ScheduleManager.ScheduleBindingsController.CanHandle | pkg/hook/controller/schedule_bindings_controller.go:66-75 | True exactly if some link has the crontab |
| ScheduleManager.ScheduleBindingsController.HandleEvent | pkg/hook/controller/schedule_bindings_controller.go:77-104 | Every link with the crontab once; some exactly if CanHandleEvent holds |
| RuntimeConfig.RunKeepsTraced | pkg/config/config.go:168-285 | Over every run of operations on registered parameters, the onChange calls form a chain from the start value to the current one, the last error is that of the last call, and nothing panics |
| RuntimeConfig.RegisteredStartsAtDefaultIff | pkg/config/config.go:61-78 | A new parameter's chain starts at its default if and only if nothing else was stored under its name before |
| RuntimeConfig.ValueOfLastOperation | pkg/config/config.go:168-269 | The value of a parameter is told by the last operation on it: Unset leaves the default, Set its value, an override or a Set with a forced duration its value until the first expiry after its end, and then what was set below |
| RuntimeConfig.LateCallBreaksChain | pkg/config/config.go:177-183 | Two Sets whose calls are swapped outside of the lock form a chain only if nothing changed |
| RuntimeConfig.ExpiredOverrideLeavesNothingIff | pkg/config/config.go:219-269 | For every store and override: after expiry all values are those that would hold had the override never been set, for all operations meanwhile and all later times, if and only if it replaces no override that holds longer, and each duration forced over it agrees with the one forced over the current value and, if an earlier override ends before, over the value below that (agree: equal, or both not positive) |
| RuntimeConfig.OverrideLeavesNothingIffLongest | pkg/config/config.go:219-269 | When forced durations do not depend on the value that is replaced, it does so if and only if an override that it replaces does not expire later |
| RuntimeConfig.OverridesLeaveNothingIff | pkg/config/config.go:219-269 | All overrides that replace no longer one do so, over all stores, operations and times, if and only if for each new value the durations forced over any two old values agree |
| RuntimeConfig.ShortOverrideEndsLongOne | pkg/config/config.go:221-226 | An override until 100, replaced by one until 11: at 20 the value is the default, and would have been that of the first |
| RuntimeConfig.LongerOverrideIsLost | pkg/config/config.go:221-226 | Right after it expires, an override that replaced a longer one always makes a difference |
| RuntimeConfig.DependentForceLeavesTrace | pkg/config/config.go:170-184 | In every store one Set whose forced duration differs under the override leaves another store after expiry |
| RuntimeConfig.DependentForceLeavesTraceLater | pkg/config/config.go:170-184 | So does one whose duration differs from that over the value below an earlier override, once that one expired |
| RuntimeConfig.SetUnderOverrideIff | pkg/config/config.go:170-184 | One Set under an override, in any store, does what it would do had the override not been set, if and only if the forced durations for the two old values agree or are both not positive |
| RuntimeConfig.ForcedSetIsTemporary | pkg/config/config.go:171-175 | A forced duration turns Set into SetTemporarily |
| RuntimeConfig.Config.Set | pkg/config/config.go:170-184 | Stores the value and drops an override, or sets one when a duration is forced; one report from the old to the new value |
| RuntimeConfig.Config.Unset | pkg/config/config.go:187-196 | Drops value and override; one report from the old value to the default |
| RuntimeConfig.Config.SetTemporarily | pkg/config/config.go:219-242 | Replaces the override, keeps the value below it; one report |
| RuntimeConfig.Config.ExpireOverrides | pkg/config/config.go:245-269 | Drops exactly the overrides that expired strictly before now and reports each once, in some order |
| RuntimeConfig.Config.GetValue | pkg/config/config.go:205-217 | Override, value or default; empty if not registered |
| KubernetesBindings.SuccessServesEveryBinding | pkg/hook/controller/kubernetes_bindings_controller.go:99-130 | From any combination of links and monitors, success gives every binding a link and an indexed monitor, and one Synchronization info each, in order |
| KubernetesBindings.RepeatAddsNothing | pkg/hook/controller/kubernetes_bindings_controller.go:105-120 | An immediate repeat adds no monitor, changes nothing and returns the same infos, even if AddMonitor would fail |
| KubernetesBindings.EnableAddsMissing | pkg/hook/controller/kubernetes_bindings_controller.go:105-120 | Fails if and only if AddMonitor fails for a binding that lacks its link or monitor; otherwise adds exactly one monitor for each of these |
| KubernetesBindings.EnableTakesNothingBack | pkg/hook/controller/kubernetes_bindings_controller.go:102-129 | Success or failure keeps all links and monitors that were there |
| KubernetesBindings.NewMonitorHasCurrentKind | pkg/kube_events_manager/kube_events_manager.go:102-135 | A missing monitor is created with the config's current kind, started and locked |
| KubernetesBindings.UpdateReplaces | pkg/hook/controller/kubernetes_bindings_controller.go:132-180 | A successful UpdateMonitor leaves one running, unlocked monitor of the new kind and sends one Added event |
| KubernetesBindings.UpdateFailureAndConfig | pkg/hook/controller/kubernetes_bindings_controller.go:132-157 | A failing UpdateMonitor stops the monitor and keeps everything else but the config, which has the new kind in both cases; configs of others stay |
| KubernetesBindings.FailedUpdateIsRepaired | pkg/hook/controller/kubernetes_bindings_controller.go:132-157 | After a failed UpdateMonitor the next successful Enable creates a monitor of the new kind |
| KubernetesBindings.RunKeepsInv | pkg/hook/controller/kubernetes_bindings_controller.go:99-213 | Over every run of calls, failing or not, no monitor runs outside of the index and each indexed one has a link |
| KubernetesBindings.EnableHeals | pkg/hook/controller/kubernetes_bindings_controller.go:99-130 | After any such run a successful Enable gives each binding a running monitor and its own Synchronization info |
| KubernetesBindings.EventReachesItsBinding | pkg/hook/controller/kubernetes_bindings_controller.go:254-280 | After any run of calls an event of a linked monitor is handled for its own binding, with this binding's settings and one context for each watch event, in order; an event of any other monitor gives none |
| KubernetesBindings.DisableLeavesNothing | pkg/hook/controller/kubernetes_bindings_controller.go:201-213 | After any run of calls Disable leaves no link and no monitor |
| KubernetesBindings.EnableLeaksIff | pkg/hook/controller/kubernetes_bindings_controller.go:105-120 | Enable, successful or not, leaves a monitor running that nobody can stop if and only if it comes to a binding with a monitor and no link before AddMonitor fails for any binding |
| KubernetesBindings.EnableInsideDisable | pkg/hook/controller/kubernetes_bindings_controller.go:201-213 | An Enable between the two halves of Disable leaks the old monitor and loses the new one |
| KubernetesBindings.KubernetesBindingsController.EnableKubernetesBindings | pkg/hook/controller/kubernetes_bindings_controller.go:99-130 | Links, index, infos and error after the loop for every choice of failing AddMonitor calls; no infos on failure |
| KubernetesBindings.KubernetesBindingsController.UpdateMonitor | pkg/hook/controller/kubernetes_bindings_controller.go:132-180 | Replaces the monitor of a linked id; fails exactly if it cannot be added again, with the new kind kept in the config |
| KubernetesBindings.KubernetesBindingsController.DisableKubernetesBindings | pkg/hook/controller/kubernetes_bindings_controller.go:201-213 | Drops all links and stops their monitors |
| KubernetesBindings.KubernetesBindingsController.AddMonitor | pkg/kube_events_manager/kube_events_manager.go:102-135 | Indexes a new monitor, or changes nothing on failure |
| KubernetesBindings.KubernetesBindingsController.StopMonitor | pkg/kube_events_manager/kube_events_manager.go:161-172 | Removes the monitor; an unknown id changes nothing |
| KubernetesBindings.KubernetesBindingsController.HandleEvent | pkg/hook/controller/kubernetes_bindings_controller.go:254-276 | The info of the link, or an empty one for an unknown id |
| KubernetesBindings.ConvertKubeEventToBindingContext | pkg/hook/controller/kubernetes_bindings_controller.go:381-416 | One context for a Synchronization, one for each watch event of an Event |
| SynchronizationTasks.SyncTaskForEachBinding | pkg/shell-operator/hook_task_factory.go:54-70 | One HookRun task for each binding, in order, with the hook, the group, the monitor id and the settings of this binding and its Synchronization context; none if enabling fails |
| SynchronizationTasks.TaskHandleEnableKubernetesBindings | pkg/shell-operator/operator.go:555-628 | Fail without tasks when the hook is missing or enabling fails; otherwise Success with one Synchronization task for each binding, in order |
| SynchronizationTasks.RoundIsExact | pkg/shell-operator/operator.go:631-758 | A task tried any number of times and then done: the absorbed tasks are exactly those that left the queue, and all their monitor IDs are unlocked or none, depending on how the collected contexts begin |
| SynchronizationTasks.GoneIsUnlocked | pkg/shell-operator/operator.go:631-758 | Over any number of rounds, a task that is gone from the queue has had its monitors unlocked, unless it left in a round that did not begin with a Synchronization |
| SynchronizationTasks.EnabledHookIsUnlocked | pkg/shell-operator/operator.go:555-758 | From end to end: after a successful Enable from any reachable state, working off the queue with any retries, combinations and arrivals has unlocked the indexed monitor of every binding, under the same condition on rounds |
| SynchronizationTasks.FrontIsUnlocked | pkg/shell-operator/operator.go:631-758 | Synchronization tasks in front of a queue have their monitors unlocked after as many rounds, if they have no group or the hook does not fail in these rounds |
| SynchronizationTasks.CalmHookIsUnlocked | pkg/shell-operator/operator.go:555-758 | From end to end without a condition on rounds that only a trace shows: a hook whose bindings have no group, whatever fails, or whose runs do not fail, has all its monitors unlocked after as many rounds as it has bindings |
| Monitor.RunKeepsInv | pkg/kube_events_manager/monitor.go:195-274 | Over every stream of namespace events: namespaces with informers are those with a cancel function and those present, each with one running generation |
| Monitor.NamespacesFollowEvents | pkg/kube_events_manager/monitor.go:165-277 | From the creation of the monitor on, the namespaces are the existing and added ones without the deleted and static ones |
| Monitor.InformersFollowEvents | pkg/kube_events_manager/monitor.go:165-278 | From the creation on, over every stream of events: the informers of each configured namespace run for ever; every other namespace has all of its informers if its last creation succeeded, and none otherwise |
| Monitor.InUseUntilDeleted | pkg/kube_events_manager/monitor.go:195-259 | An informer stays in use and running until its namespace is deleted, a static one for ever |
| Monitor.EnabledExactly | pkg/kube_events_manager/monitor.go:222-331 | From a start without enabled callbacks: an informer is enabled if and only if EnableKubeEventCb or a visit found it, or it was created after EnableKubeEventCb |
| Monitor.NothingEnabledEarly | pkg/kube_events_manager/monitor.go:364-386 | From CreateInformers through Start and any namespace events, no callback is enabled before EnableKubeEventCb |
| Monitor.EnabledForEver | pkg/kube_events_manager/monitor.go:315-327 | Once EnableKubeEventCb ran, every present and future informer has its callback enabled |
| Monitor.StartEstablishesInv | pkg/kube_events_manager/monitor.go:364-386 | Start runs what CreateInformers has built, and enables no callback |
| Monitor.FailedCreationStays | pkg/kube_events_manager/monitor.go:212-218 | A failed creation is not repaired by later events: the informers are complete if and only if it succeeded |
| Monitor.WindowSafeIff | pkg/kube_events_manager/monitor.go:320-326 | With namespace events only behind the loop of EnableKubeEventCb, all informers are enabled in the end if and only if none in use was created in between |
| Monitor.RangeSafeIff | pkg/kube_events_manager/monitor.go:315-327 | With namespaces that come and go while EnableKubeEventCb visits them and before it sets the flag: all informers are enabled in the end if and only if those in use that were created meanwhile have been visited |
| Monitor.Monitor.CreateInformersForNamespace | pkg/kube_events_manager/monitor.go:333-361 | One informer for each name, all or none |
| Monitor.Monitor.CreateStaticInformers | pkg/kube_events_manager/monitor.go:177-193 | Informers for each configured namespace, in order; the empty name is not a static namespace; at a failure it stops, with the earlier informers kept and the namespace already static |
| Monitor.Monitor.CreateVaryingInformers | pkg/kube_events_manager/monitor.go:258-273 | Informers for each existing namespace that is not static; a failed one gets an empty list |
| Monitor.Monitor.Start | pkg/kube_events_manager/monitor.go:364-386 | Runs every informer, gives each namespace a cancel function, and establishes the invariant |
| Monitor.Monitor.AddNamespace | pkg/kube_events_manager/monitor.go:199-230 | A new namespace gets running informers, enabled exactly if events are; a static or known one changes nothing |
| Monitor.Monitor.DeleteNamespace | pkg/kube_events_manager/monitor.go:231-253 | Cancels exactly the namespace's informers and forgets it; a static or unknown one changes nothing |
| Monitor.Monitor.EnableKubeEventCb | pkg/kube_events_manager/monitor.go:315-327 | Enables exactly the informers in use and sets the flag for later ones |

## Left out

- The Kubernetes API, client-go informers and reflectors, resync and cache synchronization: objects added, modified and deleted and informers that die are steps of the environment.
- jq and filter functions, checksums, JSON and YAML decoding: functions that may fail. An object transform (`transformObject`) counts as part of the filter.
- What JSON documents look like in the log: the keys and levels that a parsed record is merged into.
- ShellOperator.ShellOperator.TaskHandleHookRun: excludes a kubernetes task of a v1 hook that has no binding context, for which the source indexes an empty slice and panics.
- FactoryStore.RunKeepsInv: does not include the cancellation of the store's base context, which ends all informers at once; the wait for the cache in `Start` has no effect on the state. `WaitStopped` is left out, because the channel it waits for is never stored.
- Factories are records in a table, referred to by their number, and monitor configs are entries of a table under their monitor id, where the source shares pointers. For monitor configs this assumes that bindings with one monitor id share one config.
- Hook tasks are values and a queue is a sequence; the queue's own compaction, delays and workers are left out. Sharing of the backing array between appended slices of monitor IDs is not modelled.
- Collector.CollectorRefinesMap: is about counters. Gauges differ in `Set`, which overwrites the value. The conversion of a float to `uint64`, Prometheus descriptors and `Collect` are left out.
- Collector.UpdateRefinesIff: is about names without duplicates, as `LabelNames` provides them when a collector is made; Prometheus rejects descriptions with a name twice. The method `UpdateLabels` is proved for all names.
- RuntimeConfig.Config.Set: is one step. The source takes its lock once for the forced duration and once more for the change (`pkg/config/config.go:170-184`); an operation that comes between the two is not modelled.
- In `RuntimeConfig` a panic of a call for a name that is not registered is recorded and ends further notifications; how a server recovers from it is left out. `List`, `String` and `IsValid` are left out.
- `ScheduleManager` leaves out the start and stop of cron and the channel through which a cron function reports.
- `Monitor` treats a namespace callback as one step; `Snapshot`, `SnapshotOperations`, `Stop` and `Wait` are left out. A context is represented by the informers that run under it. The visit of one namespace in `EnableKubeEventCb` is one step.
- `UnlockEvents` for all monitors of a hook, admission and conversion bindings, and `SnapshotsDump` are left out.
- Rate limits, metrics, logging text, process execution, temporary files, HTTP and debug servers, CLI flags and telemetry are left out.
