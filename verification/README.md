# Bookkeeping of the CoreShift Engine

The engine watches per-uid cgroup directories to find out which Android application is in the
foreground. Most of its logic is bookkeeping between things that change on their own (directories,
inotify queues, file descriptors, package lists) and tables the engine keeps about them. This
project models that bookkeeping and proves when the tables are right.

Parts, hardest first:

- **Watch table and notifications.** `WatchTable` gives every handler of the cgroup v2 source as a
  function of the file system, the table and the kernel's descriptors; `CgroupV2Source` is the
  source as a mutable object whose methods compute these functions. `WatchTableFacts` and
  `WatchHandlers` relate each handler to a full scan. `Convergence` adds directories that come and
  go and a queue that delays and drops notifications, and proves that the table catches up.
  `OverflowLosses` says exactly what a dropped notification costs. `AutomaticConvergence` and
  `AutomaticOverflow` do both for the v2 source behind the automatic one.
- **Priority registrations.** `Reconciliation` models the reactor's interest list, the watcher's
  three tables and the automatic source that hides v2 while v1 answers. `ReconciliationFacts` and
  `ReconciliationRuns` prove that registrations mirror the table after every sync of every run.
  `CandidateRuns` proves that every candidate of every run is justified, `AutomaticMode` which
  source is listened to. `AutoSource` and `EngineWatch` are the mutable objects, with the sync
  loops and the poll loop; `PollLoop` says what a poll amounts to: a run of the engine whose
  answers are published.
- **Events and state.** `Pipeline` (dispatch, services, reducer), `ChangeFilter` (deduplication and
  cache invalidation) and `Runtime` (warm-up and steps): the engine state is always the replay of
  the emitted log.
- **Selection.** `Selection` is the v1 choice among processes; `Resolver` the report over a v1
  payload and the marker-driven package cache; `Candidates` the shared filter.
- **Text formats.** `ManagedGames`, `PackageList` with `PackageIndex`, `ProcMounts`, `CgroupEvents`
  and `UidDirs`, on top of `Text` (the string operations of the standard library), `Ordering`
  (ordered maps and sets) and `Paths`.
- **Preload.** `Preload` covers the chunk loop and the accounting. `Quotients` and `Basics` hold
  arithmetic and small datatypes.

The whole project is checked with `dafny verify dfyconfig.toml`.

## What the proofs show about the code

- Once nothing is pending for a directory, a held descriptor belongs to a former incarnation if and
  only if the removal of that incarnation was dropped: the rescan after an overflow sees that the
  path exists again and leaves the old watch alone (`Convergence.RunsConverge`,
  `OverflowLosses.MarkerKeepsOldDescriptors`, reached by `OverflowLosses.OldDescriptorRun`).
- The kernel keeps a single overflow marker. An existing directory stays unwatched if its arrival
  is dropped while the marker is still queued and the removal of its former self is the last word
  behind it; `OverflowLosses.DropLosesIff` shows that this is the exact condition and
  `OverflowLosses.LostDirectoryRun` reaches it.
- Behind the automatic source an overflow is answered by polling. That repairs the table exactly
  when v1 does not answer and the poll meets a vanished file before a candidate or an error ends
  it (`AutomaticOverflow.AttemptsCompleteIff`); `AutomaticOverflow.OverflowMissesDirectory` is a
  run in which a directory is missed.
- Hiding the v2 table is accepted by the reactor if and only if no recorded watch was replaced
  since the last sync (`ReconciliationRuns.HidingSucceedsIff`). A refusal cannot happen while the
  file system stands still during one handler call; `ReconciliationRuns.AttemptsChange` shows why.
- With the generation counter at its largest value a replaced watch is noticed if and only if its
  old generation was smaller (`ReconciliationRuns.SaturatedReplacementNoticedIff`).
- A rescan does not always agree with a new source: a watch below a root that can no longer be
  listed survives the one and is not found by the other (`WatchHandlers.RescanMatchesFresh` gives
  the exact condition, `EngineRuns.UnlistableRootKeepsWatch` a run).
- A v1 candidate of an application uid carries a package the cache lists if and only if the cache
  knows the uid (`Selection.ListedIffKnown`, `Selection.UnknownUidTakesCmdline`).
- A first marker file is trusted without a rebuild (`Resolver.FirstMarkerTrustsCache`).
- A dirty identity cache is never refreshed by a step, because no watch asks for it
  (`Runtime.EngineRuntime.Step`).
- Octal escapes in mount tables are read by a general integer parser, so a backslash followed by a
  plus sign and two octal digits is an escape too (`ProcMounts.SignedEscapeIsRead`).
- The repository's own tests lag its code: they use pids below 100, which the v1 source skips
  (crates/engine/src/services/foreground/cgroup_v1.rs:161), and call the resolver constructor with
  four arguments where it takes five (crates/engine/src/services/foreground/resolver.rs:83). The
  model follows the code.

## Assumptions

- The kernel is a parameter. A file system is a map from existing paths to nodes with an
  incarnation, plus the set of listable directories and a listing order. Descriptors, tokens and
  watch descriptors are never reused; closing a descriptor takes it off the reactor. What v1, the
  activity fallback, file stats and package loads answer is passed in as data.
- The file system stands still during one handler call, its three attempts included.
- A lost notification leaves an overflow marker behind what is already queued, unless a marker is
  still queued; then it leaves nothing.
- A cgroup directory appears together with its events file, and whether that file opens does not
  change while the directory lives.
- Text is ASCII, so characters and bytes coincide, and `usize` has 64 bits.

## Model

| member | source | states |
|---|---|---|
| Convergence.RunsConverge | crates/engine/src/services/foreground/cgroup_v2.rs:142-315 | Main result. For any interleaving of directory creations, deletions, rewrites, listing orders, queued, dropped and delivered notifications, polls, priority and stale-descriptor events, with the single overflow marker of the kernel: a directory with nothing pending is watched if a scan would find it, unless its arrival was dropped while its removal was the last word behind the queued marker; it is unwatched if its events file is gone; and a held descriptor belongs to the present incarnation if and only if the removal of the incarnation it was opened in was not dropped |
| Convergence.LosslessRunsConverge | crates/engine/src/services/foreground/cgroup_v2.rs:142-315 | Without dropped notifications: watched if and only if a scan would find it, always through a descriptor of the present incarnation |
| Convergence.RunStrandsLostArrivals | crates/engine/src/services/foreground/cgroup_v2.rs:274-283 | The exception of the main result is never claimed for a directory none of whose arrivals was dropped |
| Convergence.RunKeepsNet | crates/engine/src/services/foreground/cgroup_v2.rs:142-348 | The invariant behind it holds over every run: each findable directory that is not excepted is watched or promised by a queued notification and no removal is the last word on it, each watch without a file has its removal or a marker queued, each descriptor of an older incarnation has its removal queued or recorded as dropped |
| Convergence.StepKeepsNet | crates/engine/src/services/foreground/cgroup_v2.rs:142-348 | Every single step keeps that invariant, whichever of the nine kinds it is |
| Convergence.DeliverKeepsNet | crates/engine/src/services/foreground/manager.rs:212-226 | Handing the first notification to the three-attempt retry loop keeps the invariant with that notification consumed |
| OverflowLosses.MarkerKeepsOldDescriptors | crates/engine/src/services/foreground/cgroup_v2.rs:142-158 | After the rescan of an overflow a watched file has a current descriptor if and only if it was not already watched through an old one |
| OverflowLosses.OldDescriptorRun | crates/engine/src/services/foreground/cgroup_v2.rs:142-158 | From any watched directory a run with nothing pending at its end leaves it watched through the descriptor of its former incarnation |
| OverflowLosses.DropLosesIff | crates/engine/src/services/foreground/cgroup_v2.rs:274-315 | The exact condition when an arrival is dropped: once everything queued is handled the directory is watched if and only if not both the marker was still queued and the removal of its former self was the last word behind it |
| OverflowLosses.LostDirectoryRun | crates/engine/src/services/foreground/cgroup_v2.rs:274-315 | From any watched directory a run with nothing pending at its end leaves it existing, findable and unwatched |
| WatchHandlers.RescanMatchesFresh | crates/engine/src/services/foreground/cgroup_v2.rs:105-158 | A rescan leaves the path-to-uid table a new source would build if and only if every held path that still exists is itself findable by a scan |
| WatchHandlers.RescanKeepsSurvivors | crates/engine/src/services/foreground/cgroup_v2.rs:142-182 | A rescan keeps the whole watch of every path that still exists: uid, descriptor, generation, recorded state |
| WatchHandlers.RescanIdempotent | crates/engine/src/services/foreground/cgroup_v2.rs:142-158 | Two rescans are one, down to descriptors and generations |
| WatchHandlers.FreshFindsWatchable | crates/engine/src/services/foreground/cgroup_v2.rs:54-66 | A new source watches exactly the valid uid directories below listable roots whose events file opens |
| WatchHandlers.RepeatIsNoop | crates/engine/src/services/foreground/cgroup_v2.rs:354-373 | Repeating a notification that produced no candidate changes nothing and produces nothing |
| WatchHandlers.RetryIsOneCall | crates/engine/src/services/foreground/manager.rs:212-226 | Any positive number of attempts equals one call, so the three-attempt retry is safe |
| WatchHandlers.FsEventIsTidy | crates/engine/src/services/foreground/cgroup_v2.rs:274-315 | A notification closes no live path other than its own, replaces nothing, and on overflow leaves a table that agrees with a full scan |
| WatchHandlers.EventsPathIsTidy | crates/engine/src/services/foreground/cgroup_v2.rs:219-234 | A priority event closes only watches whose file is gone and replaces nothing |
| WatchHandlers.StaleEventsPathCompletes | crates/engine/src/services/foreground/cgroup_v2.rs:236-243 | A stale descriptor is closed and the table afterwards agrees with a full scan |
| WatchHandlers.PollIsTidy | crates/engine/src/services/foreground/cgroup_v2.rs:323-348 | Polling closes only watches whose file is gone and replaces nothing |
| WatchHandlers.PollIsFirstVerdict | crates/engine/src/services/foreground/cgroup_v2.rs:323-348 | Though polling rewrites the table as it goes, its answer is the first candidate or error in path order judged on the table it started from |
| WatchHandlers.PriorityAnswersVerdict | crates/engine/src/services/foreground/cgroup_v2.rs:219-234 | A priority event on a current descriptor does exactly what polling does for its path, as long as the buffer holds the deciding line |
| WatchHandlers.PriorityCandidateJustified | crates/engine/src/services/foreground/cgroup_v2.rs:199-272 | A candidate from a priority event is admitted by the filter, exactly named by the cache, and the uid of a held watch just read as populated |
| WatchHandlers.FsCandidateJustified | crates/engine/src/services/foreground/cgroup_v2.rs:274-315 | The same for candidates from notifications |
| WatchHandlers.KindByBits | crates/engine/src/services/foreground/cgroup_v2.rs:274-315 | What every 32-bit mask means, in literal bits and in the order they are tested; further bits such as the directory bit change nothing |
| WatchHandlers.CandidateMeans | crates/engine/src/services/foreground/cgroup_v2.rs:199-217 | A uid yields a candidate if and only if the cache lists exactly one package for it and that is not blocked, and which candidate |
| WatchHandlers.PollPublishes | crates/engine/src/services/foreground/cgroup_v2.rs:323-348 | A held watch whose file says populated 1 does yield its candidate to a poll, and one that says 0 does not |
| WatchHandlers.ArrivalPublishes | crates/engine/src/services/foreground/cgroup_v2.rs:160-217 | A new directory that can be watched is watched and recorded, and if its file says populated 1 its one package is published at once |
| WatchHandlers.LostRootsAreRemembered | crates/engine/src/services/foreground/cgroup_v2.rs:283-289 | A lost root is remembered as stale, and nothing else ever is |
| WatchHandlers.GoneDirectoryCloses | crates/engine/src/services/foreground/cgroup_v2.rs:290-296 | An event about a uid directory that leaves or no longer exists closes the watch of that directory and uid, and no other |
| WatchHandlers.OtherEventsIgnored | crates/engine/src/services/foreground/cgroup_v2.rs:290-309 | Events that say nothing about a uid directory below a root change nothing |
| WatchHandlers.UnreadableIsAnError | crates/engine/src/services/foreground/cgroup_v2.rs:219-234 | A live descriptor that cannot be read is an error and changes nothing |
| WatchTableFacts.RescanIsTidy | crates/engine/src/services/foreground/cgroup_v2.rs:142-158 | A rescan drops exactly the watches without a file and finds everything a scan can find, touching nothing else |
| WatchTableFacts.ScanFinds | crates/engine/src/services/foreground/cgroup_v2.rs:105-121 | Whatever the listing order, a scan adds every findable directory, adds nothing else and disturbs no held watch |
| WatchTableFacts.AddIsTidy | crates/engine/src/services/foreground/cgroup_v2.rs:160-182 | Opening a watch keeps the table invariant: own descriptor, unused generation, legitimate path and uid |
| WatchTableFacts.RemoveEvolves | crates/engine/src/services/foreground/cgroup_v2.rs:184-197 | Removing watches takes exactly their descriptors off the reactor |
| WatchTableFacts.EvolvedTransitive | crates/engine/src/services/foreground/cgroup_v2.rs:160-197 | The shape of a change composes, so it describes any number of handler calls |
| CgroupV2Source.CgroupV2EventsSource.constructor | crates/engine/src/services/foreground/cgroup_v2.rs:54-66 | Builds the table a scan of the roots builds |
| CgroupV2Source.CgroupV2EventsSource.ScanRoots | crates/engine/src/services/foreground/cgroup_v2.rs:105-121 | In-place scan refines the specification function |
| CgroupV2Source.CgroupV2EventsSource.RescanRoots | crates/engine/src/services/foreground/cgroup_v2.rs:142-158 | The removal loop one path at a time equals removing all vanished paths at once, then scanning |
| CgroupV2Source.CgroupV2EventsSource.CollectVanished | crates/engine/src/services/foreground/cgroup_v2.rs:143-153 | Filtering the table in its own order yields the vanished paths in ascending order |
| CgroupV2Source.CgroupV2EventsSource.AddUidWatch | crates/engine/src/services/foreground/cgroup_v2.rs:160-182 | New state and whether a watch was added, including every reason not to add one |
| CgroupV2Source.CgroupV2EventsSource.RemoveUidWatchPath | crates/engine/src/services/foreground/cgroup_v2.rs:184-193 | Removes only a watch of that uid and closes its descriptor |
| CgroupV2Source.CgroupV2EventsSource.RemoveWatchPath | crates/engine/src/services/foreground/cgroup_v2.rs:195-197 | Removes the watch and closes its descriptor; says whether there was one |
| CgroupV2Source.CgroupV2EventsSource.HandleEventsPath | crates/engine/src/services/foreground/cgroup_v2.rs:219-234 | Unknown path, vanished file, unreadable descriptor and readable descriptor, the last drained and read by the loops of the events descriptor, each with its state and answer |
| CgroupV2Source.CgroupV2EventsSource.HandleStaleEventsPath | crates/engine/src/services/foreground/cgroup_v2.rs:236-243 | Replaces the watch by what a rescan finds |
| CgroupV2Source.CgroupV2EventsSource.HandleUidPopulatedAt | crates/engine/src/services/foreground/cgroup_v2.rs:245-272 | Records the population and answers with a candidate only for an active group |
| CgroupV2Source.CgroupV2EventsSource.HandleRootPath | crates/engine/src/services/foreground/cgroup_v2.rs:274-315 | Overflow, lost root, departure and arrival, in the order the mask is tested |
| CgroupV2Source.CgroupV2EventsSource.HandleFsEventWithMask | crates/engine/src/services/foreground/cgroup_v2.rs:354-373 | Any 32-bit mask and path: new state and answer are those of the meaning WatchHandlers.KindByBits reads off the bits of the mask |
| CgroupV2Source.CgroupV2EventsSource.PollCurrent | crates/engine/src/services/foreground/cgroup_v2.rs:323-348 | The polling loop with its rescans and early returns refines the recursive specification |
| ReconciliationRuns.RunsStaySynced | crates/engine/src/services/watch.rs:324-361 | Main result. In every run of the v2 source alone or behind the automatic source, as long as the generation counter is not exhausted the reactor refuses no call, and unless a handler failed keys equal the visible path-to-generation map, paths are its domain, tokens map one-to-one onto them and the live descriptors in the reactor are exactly theirs |
| ReconciliationRuns.SyncRestores | crates/engine/src/services/watch.rs:324-361 | One sync restores all of that from whatever handlers left, every removal and addition is accepted, and tokens of undisturbed watches survive |
| ReconciliationRuns.HidingSucceedsIff | crates/engine/src/services/foreground/auto.rs:109-132 | Hiding the table while v1 answers succeeds if and only if no recorded watch was replaced since the last sync |
| ReconciliationRuns.StepOk | crates/engine/src/services/watch.rs:102-191 | Every engine step keeps the run invariant and never lowers the generation counter |
| ReconciliationRuns.AfterHandlerOk | crates/engine/src/services/watch.rs:131-167 | After any handler call that answered, the following sync leaves the invariant |
| ReconciliationRuns.AttemptsChange | crates/engine/src/services/foreground/manager.rs:212-226 | All attempts at one notification together only close or open watches, and replace none if the table ends up hidden |
| ReconciliationRuns.StaleFrontChange | crates/engine/src/services/foreground/auto.rs:147-158 | A stale descriptor replaces a watch only when the table stays visible |
| ReconciliationRuns.BeginOk | crates/engine/src/services/watch.rs:49-78 | The first sync of a new watcher establishes the invariant in either mode |
| ReconciliationRuns.SaturatedReplacementNoticedIff | crates/engine/src/services/foreground/cgroup_v2.rs:171-172 | Why exhaustion is excluded: with the counter at its largest value the sync notices a replaced watch if and only if its old generation was smaller; otherwise the new descriptor is never registered |
| AutomaticOverflow.PollCompletesIff | crates/engine/src/services/foreground/cgroup_v2.rs:323-348 | A poll leaves a table that agrees with a full scan if and only if it agreed before or the poll meets a vanished file before a candidate or an error ends it |
| AutomaticOverflow.OverflowCompletesIff | crates/engine/src/services/foreground/auto.rs:63-92 | Behind the automatic source an overflow repairs the table if and only if it was right before, or v1 does not answer and polling meets a vanished file in time; otherwise it opens and closes nothing, although the v2 source alone always repairs it |
| AutomaticOverflow.AttemptsCompleteIff | crates/engine/src/services/foreground/manager.rs:212-226 | The same for all attempts of the manager together: some attempt must fall to polling after attempts in which v1 had nothing to say |
| AutomaticOverflow.OverflowMissesDirectory | crates/engine/src/services/foreground/auto.rs:63-92 | From any start below exhaustion, a run in which a directory lost in an overflow exists, is findable and stays unwatched, whatever v1 and the fallback answer |
| AutomaticConvergence.AutoRunsConverge | crates/engine/src/services/foreground/auto.rs:63-92 | While v1 never answers and nothing is dropped, the v2 table behind the automatic source converges as the v2 source alone does, and v1 stays unavailable |
| AutomaticConvergence.AttemptsAreRetries | crates/engine/src/services/foreground/manager.rs:212-226 | Events below a root then reach the v2 source exactly as if it were alone |
| EngineRuns.UnlistableRootKeepsWatch | crates/engine/src/services/foreground/cgroup_v2.rs:142-158 | The failing side of the rescan condition is reached: after a root stops being listable a rescan keeps its watches and a new source would not find them |
| ReconciliationFacts.HandlersKeepBehind | crates/engine/src/services/watch.rs:324-361 | However handlers change the table, each recorded token is live exactly if its watch was neither closed nor replaced |
| ReconciliationFacts.UnregisterLoop | crates/engine/src/services/watch.rs:330-343 | The first loop is never refused and removes exactly the gone paths |
| ReconciliationFacts.DropLoop | crates/engine/src/services/watch.rs:344-350 | The second loop forgets exactly the replaced paths, whose descriptors are already closed |
| ReconciliationFacts.RegisterLoop | crates/engine/src/services/watch.rs:352-359 | The third loop registers each missing path once and is never refused |
| ReconciliationFacts.RegisterThenRecord | crates/engine/src/services/foreground/cgroup_v2.rs:393-406 | Registering everything and recording afterwards equals doing both path by path |
| CandidateRuns.RunCandidatesVouched | crates/engine/src/services/foreground/cgroup_v2.rs:199-272 | In every run, each candidate the source answers with is justified by a held watch, or is what v1 or the fallback answered behind the automatic source |
| CandidateRuns.StepSyncsAnswer | crates/engine/src/services/watch.rs:131-167 | An engine step is the source answer followed by a sync |
| AutoSource.HintsFollowAvailability | crates/engine/src/services/foreground/auto.rs:202-212 | A path is hinted iff v1 hints it, or v1 is unavailable and it is a v2 root |
| AutoSource.AutoForegroundSource.constructor | crates/engine/src/services/foreground/auto.rs:21-32 | Hints belong to the initial availability |
| AutoSource.AutoForegroundSource.RefreshWatchHintPaths | crates/engine/src/services/foreground/auto.rs:202-212 | Rebuilds the hints for the present availability, in order and without repetition of v2 roots |
| AutoSource.AutoForegroundSource.SetV1Available | crates/engine/src/services/foreground/auto.rs:194-200 | Hints never disagree with the availability |
| AutoSource.AutoForegroundSource.PollCurrent | crates/engine/src/services/foreground/auto.rs:45-57 | v1, then v2, then the fallback; v1 is available afterwards exactly if it answered, and the hints are the v1 paths and, only without v1, the v2 roots |
| AutoSource.AutoForegroundSource.RecoverV1IfAvailable | crates/engine/src/services/foreground/auto.rs:179-192 | Recovery happens exactly when v1 is available or answers; otherwise nothing changes |
| AutoSource.AutoForegroundSource.HandleFsEventWithMask | crates/engine/src/services/foreground/auto.rs:63-92 | v1 paths, v2 paths and other paths, each with its fallbacks |
| AutoSource.AutoForegroundSource.HandlePriorityEvent | crates/engine/src/services/foreground/auto.rs:134-145 | v2 is asked only while v1 cannot be recovered |
| AutoSource.AutoForegroundSource.HandleStalePriorityEvent | crates/engine/src/services/foreground/auto.rs:147-158 | v2 is asked only while v1 cannot be recovered |
| AutomaticMode.RunFollowsV1 | crates/engine/src/services/foreground/auto.rs:45-200 | Main result. In every run v1 is available if and only if it answered the last time it was asked, or, never asked, was available at the start |
| AutomaticMode.PollFollowsV1 | crates/engine/src/services/foreground/auto.rs:45-57 | A poll asks v1 and gives its answer; if it has none, v2 answers on the same table, and on a v2 error the fallback |
| AutomaticMode.FsEventFollowsV1 | crates/engine/src/services/foreground/auto.rs:63-92 | Which notifications ask v1, who answers each, and that the others change nothing while v1 is available |
| AutomaticMode.PriorityFollowsV1 | crates/engine/src/services/foreground/auto.rs:134-145 | The same for a live descriptor |
| AutomaticMode.StaleFollowsV1 | crates/engine/src/services/foreground/auto.rs:147-158 | The same for a stale descriptor |
| EngineWatch.EngineWatch.PollOnce | crates/engine/src/services/watch.rs:102-192 | Main result for the poll loop, with the file system changing between handler calls. The ready list stands for a run of the engine: source, watch table and registrations are those Reconciliation.Run leaves, and the log is what the candidates of that run publish once repetitions of the one before are left out. Remembered candidate, invalidator and watched directories follow the same answers, and an error is the first answer that was one. The engine state is the replay of the log, candidates and identities come in pairs, sockets are handed back in order, and the reactor refuses only after the generation counter is exhausted |
| PollLoop.WorkPublishesAnswers | crates/engine/src/services/watch.rs:123-185 | What working off a list publishes is the answers of the run it stands for, in order, without those that repeat the one before, the first compared with the one remembered |
| PollLoop.WorkIsRun | crates/engine/src/services/watch.rs:123-185 | Working off a list is a run of the engine, and change filter and invalidator are shown exactly the answers of that run |
| PollLoop.ArrivalIsPublished | crates/engine/src/services/watch.rs:144-176 | End to end: the announcement of a new directory below a watched root, with a populated file and one unblocked package, adds the watch, emits the candidate unless it repeats the last, and registers the descriptor under its generation |
| PollLoop.SignalIsPublished | crates/engine/src/services/watch.rs:131-143 | End to end: a live descriptor that reads populated 1 makes its package the last candidate and emits it unless it repeats the last |
| PollLoop.EventActs | crates/engine/src/services/watch.rs:149-170 | Which action every event is, by bit 14 of its mask, its descriptor and its name |
| PollLoop.ItemsInOrder | crates/engine/src/services/watch.rs:123-185 | Every ready descriptor and every event of a batch is worked off once, in order; sockets are not |
| PollLoop.StoppedStays | crates/engine/src/services/watch.rs:133-176 | After an error nothing further is done |
| PollLoop.SyncWatchesHints | crates/engine/src/services/watch.rs:304-322 | A sync of the watched directories: which are watched, that kept ones keep their descriptors and others get new ones, and that every hinted path that cannot be watched is recorded as refused, in order |
| PollLoop.EventSyncsPaths | crates/engine/src/services/watch.rs:159-176 | After a handled event exactly those directories are watched that the source, in the mode it now has, hints and that were watched or can be |
| PollLoop.PublishedPairs | crates/engine/src/services/watch.rs:399-418 | Whatever a poll emits, candidates and identities come in pairs |
| PollLoop.ObservedCollapse | crates/engine/src/services/foreground/manager.rs:274-299 | From any remembered candidate, what passes the change filter is what was observed without repetitions of the one before |
| EngineWatch.EngineWatch.Elapse | crates/engine/src/services/watch.rs:123-185 | A change of the file system between handler calls is the engine step for it and leaves the registrations in step |
| EngineWatch.EngineWatch.HandlePriorityReady | crates/engine/src/services/watch.rs:131-143 | One ready descriptor: a stale one is replaced and a live one read, published and synced as PollLoop.SignalAnswered says; tokens without a path and events without flags do nothing |
| EngineWatch.EngineWatch.HandleInotifyReady | crates/engine/src/services/watch.rs:149-185 | A batch of inotify events is worked off in order until an error, with the file system changing between them |
| EngineWatch.EngineWatch.HandleInotifyEvent | crates/engine/src/services/watch.rs:149-170 | One event is the action PollLoop.EventActs names: overflow goes to the source without a path, a known descriptor with the named path, and events of unknown descriptors are ignored |
| EngineWatch.EngineWatch.HandleFsPath | crates/engine/src/services/watch.rs:149-176 | The answer of all attempts is published, then the watched directories become exactly the hinted ones that were watched or could be watched, then the registrations are synced |
| EngineWatch.EngineWatch.PollCurrentForeground | crates/engine/src/services/watch.rs:240-247 | The answer is that of polling the source, and watched directories and registrations follow it |
| EngineWatch.EngineWatch.Start | crates/engine/src/services/watch.rs:49-78 | A new watcher watches the hints that can be watched and is in step, unless the generation counter is already exhausted |
| EngineWatch.EngineWatch.AddWatchPath | crates/engine/src/services/watch.rs:265-302 | Adds a descriptor once; a refused path is recorded as a failure |
| EngineWatch.EngineWatch.RemoveWatchPath | crates/engine/src/services/watch.rs:363-390 | Removes the one descriptor of the path, if it is watched |
| EngineWatch.EngineWatch.SyncForegroundWatchPaths | crates/engine/src/services/watch.rs:304-322 | The two loops compute the sync PollLoop.SyncWatchesHints is about: exactly the hinted paths are watched that were watched before or can be watched now |
| EngineWatch.EngineWatch.PublishSeen | crates/engine/src/services/foreground/manager.rs:133-149 | What is published and counted is what the change filter lets through |
| EngineWatch.PriorityWatcher.SyncForegroundPriorityFds | crates/engine/src/services/watch.rs:324-361 | The three in-place loops compute the sync the run results are about |
| EngineWatch.PriorityWatcher.RegisterPriorityFds | crates/engine/src/services/foreground/cgroup_v2.rs:393-406 | Registers every visible unregistered path in order, or fails at the first refusal |
| EngineWatch.PriorityWatcher.UnregisterPriorityFd | crates/engine/src/services/foreground/cgroup_v2.rs:433-439 | Refused exactly when the held descriptor is not registered; nothing to do without a watch |
| EngineWatch.PriorityWatcher.DropPriorityPath | crates/engine/src/services/watch.rs:392-397 | Forgets the path in all three tables |
| EngineWatch.PriorityWatcher.HandleFsEventRetrying | crates/engine/src/services/foreground/manager.rs:212-226 | The retry loop stops at an error or a candidate |
| Runtime.EngineRuntime.Step | crates/engine/src/runtime.rs:55-86 | A started runtime does and publishes exactly what one poll does, errors included; it never refreshes the cache, even a dirty one; an unstarted one changes nothing |
| Runtime.EngineRuntime.Start | crates/engine/src/runtime.rs:45-53 | Starts once, on a valid configuration, with a cache load; otherwise nothing changes |
| Runtime.EngineRuntime.RefreshIdentityCache | crates/engine/src/runtime.rs:88-105 | A failed load empties the cache and keeps the dirty mark; every other load clears it |
| Runtime.EngineRuntime.ApplyIdentityCacheState | crates/engine/src/runtime.rs:107-123 | The announcement is appended to the log and replayed into the state |
| Runtime.AnnouncedStateMatches | crates/engine/src/state.rs:52-70 | After an announcement the engine state describes the cache as the runtime does |
| Runtime.AnnouncedIsLoaded | crates/engine/src/runtime.rs:88-123 | A load announces the coherence and size of its snapshot or its error; without a provider nothing is announced |
| Runtime.IdentitiesFollowLoad | crates/engine/src/runtime.rs:125-170 | After a cache load, every identity with a uid that a step emits says of the uid exactly what the loaded package list says: its one package, none, or several; without a loaded list it says nothing |
| Runtime.EngineRuntime.Steps | crates/engine/src/runtime.rs:55-86 | Any number of steps: the watcher is where the polls lead one after the other, each log is what its poll publishes, and the state is the left fold of the reducer over the logs, in turn and as a whole |
| Pipeline.EngineState.Apply | crates/engine/src/state.rs:28-71 | The in-place reducer computes the replayed one, case by case |
| Pipeline.ReduceByField | crates/engine/src/state.rs:28-71 | What becomes of every part of the state, for every event; the job count saturates |
| Pipeline.ReplayCountsJobs | crates/engine/src/state.rs:28-71 | Over any log the job count is the number of completions, cut off at the largest 64-bit number |
| Pipeline.ResolveByCases | crates/engine/src/services/identity.rs:35-63 | What is said about an identity in every case of pid, uid, cache and number of listed packages |
| Pipeline.EngineState.ApplyEvents | crates/engine/src/services/watch.rs:399-418 | The log grows by what the events publish and the state moves by replaying exactly that growth |
| Pipeline.PublishedIsPaired | crates/engine/src/dispatch.rs:22-34 | For any foreground events, each candidate with pid or uid is followed at once by its identity, and there are no other identities |
| Pipeline.LastIdentityAfterPublish | crates/engine/src/services/identity.rs:35-63 | After an event the state holds the identity of that candidate, or none if the foreground became unknown |
| Pipeline.ReplayConcat | crates/engine/src/state.rs:28-71 | Replaying two logs in turn is replaying their concatenation |
| ChangeFilter.RunEmitsChanges | crates/engine/src/services/foreground/manager.rs:274-299 | Main result. Over any run the emitted candidates are the observed ones with repetitions collapsed, the invalidator counts every emission but the first up to saturation, and below saturation the package file is examined count / interval times |
| ChangeFilter.CollapseFacts | crates/engine/src/services/foreground/manager.rs:274-299 | Collapsing leaves no equal neighbours and keeps the last element |
| ChangeFilter.CleanMeansUnmoved | crates/engine/src/services/identity_cache.rs:68-102 | While the cache is not marked dirty the recorded fingerprint is the original one, so no change a check saw goes unmarked |
| ChangeFilter.DirtyIffMoved | crates/engine/src/services/identity_cache.rs:68-102 | Over any run the recorded fingerprint is the last one a look saw, and the cache is dirty if and only if it was, or some look saw another fingerprint than the one recorded first |
| ChangeFilter.LookRecords | crates/engine/src/services/identity_cache.rs:68-102 | A due look records a good stat and marks the cache dirty exactly if it differs; a failed one only counts |
| ChangeFilter.ForegroundManager.FilterChanged | crates/engine/src/services/foreground/manager.rs:274-299 | What is remembered, emitted and counted, by equality of all five fields |
| ChangeFilter.IdentityCacheInvalidator.constructor | crates/engine/src/services/identity_cache.rs:42-54 | Count zero, clean, fingerprint only with a configured file |
| ChangeFilter.IdentityCacheInvalidator.MarkForegroundCandidate | crates/engine/src/services/identity_cache.rs:68-77 | Counts with saturation and examines the file every interval |
| ChangeFilter.IdentityCacheInvalidator.CheckPackagesXml | crates/engine/src/services/identity_cache.rs:91-102 | A failed stat changes nothing; a different fingerprint marks the cache dirty |
| ChangeFilter.IdentityCacheInvalidator.ConsumeDirty | crates/engine/src/services/identity_cache.rs:87-89 | Returns the mark and clears it |
| Selection.ResolvesToGreatest | crates/engine/src/services/foreground/cgroup_v1.rs:145-214 | Main result. Resolution fails iff a line is malformed or a uid lookup fails, and otherwise answers with the greatest acceptable process under (UI first, then pid) among all pids of at least 100, or nothing if there is none |
| Selection.AnswerDependsOnPidSet | crates/engine/src/services/foreground/cgroup_v1.rs:145-214 | On success the answer depends only on the set of listed pids, not on order or repetition |
| Selection.FoldIsGreatest | crates/engine/src/services/foreground/cgroup_v1.rs:152-206 | The reverse fold, from any intermediate best, keeps the greatest |
| Selection.GreatestUnique | crates/engine/src/services/foreground/cgroup_v1.rs:189-201 | At most one process is greatest |
| Selection.JudgeReadsCmdline | crates/engine/src/services/foreground/cgroup_v1.rs:161-187 | A process named by its command line is accepted with that package, and is a user interface if and only if the line holds a colon and neither remote nor service anywhere |
| Selection.JudgeFallsBack | crates/engine/src/services/foreground/cgroup_v1.rs:187-278 | Any other process of a valid uid falls back to the one unblocked package of the uid, never as a user interface, unless it is a Termux helper |
| Selection.JudgeRejects | crates/engine/src/services/foreground/cgroup_v1.rs:161-170 | The remaining cases: small pids and vanished processes are skipped, failed lookups are errors, and invalid uids are skipped |
| Selection.UiByPositions | crates/engine/src/services/foreground/cgroup_v1.rs:220-222 | The user interface test by the characters of the command line |
| Selection.PackageIffProcess | crates/engine/src/services/foreground/cgroup_v1.rs:280-283 | The package taken from a command line, by the characters of its first word |
| Selection.PayloadListsPids | crates/engine/src/services/foreground/cgroup_v1.rs:145-163 | A printed list of pids is read as exactly these pids |
| Selection.CandidatesAreSound | crates/engine/src/services/foreground/cgroup_v1.rs:165-251 | Every accepted process has a valid uid, an unblocked package, a resolved identity, and does not contradict the cache |
| Selection.ListedIffKnown | crates/engine/src/services/foreground/cgroup_v1.rs:226-240 | For an application uid the package is one the cache lists if and only if the cache knows the uid at all |
| Selection.UnknownUidTakesCmdline | crates/engine/src/services/foreground/cgroup_v1.rs:226-240 | The other case exists: for a uid the cache does not know any package-like command line is published |
| Selection.CmdlineGivesProcessName | crates/engine/src/services/foreground/cgroup_v1.rs:280-283 | Only a nonempty word with a dot, without slash or colon is ever taken from a command line as a package |
| Selection.ProcessNameIsRead | crates/engine/src/services/foreground/cgroup_v1.rs:280-283 | Every such name is read back from its own process and from any of its named services, whatever arguments follow |
| Selection.ResolvedCandidateIsSound | crates/engine/src/services/foreground/cgroup_v1.rs:145-251 | The same guarantees for whatever a whole payload resolves to, whose pid is listed in it |
| Selection.CgroupV1CpusetSource.Resolve | crates/engine/src/services/foreground/cgroup_v1.rs:145-214 | The loop computes the specified answer and remembers it only on success |
| Selection.CgroupV1CpusetSource.PollCurrent | crates/engine/src/services/foreground/cgroup_v1.rs:115-118 | Resolves what it read; a failed read changes no memory |
| Selection.CgroupV1CpusetSource.HandleFsEvent | crates/engine/src/services/foreground/cgroup_v1.rs:120-133 | Answers what polling would, whether or not the list changed since the last read |
| Selection.CgroupV1CpusetSource.Observe | crates/engine/src/services/foreground/resolver.rs:45-52 | Reports a payload iff it differs from the remembered one, and remembers it |
| PackageIndex.UidPackageCache.UpdateFromSnapshot | crates/engine/src/services/foreground/cache.rs:73-100 | Whatever the cache held, it becomes the index of the snapshot |
| PackageIndex.UidListsAreExact | crates/engine/src/services/foreground/cache.rs:83-98 | A uid list is strictly ascending and holds exactly the packages listed with the uid |
| PackageIndex.UidStateCountsPackages | crates/engine/src/services/foreground/cache.rs:135-141 | Exact, Missing and Ambiguous give the distinct packages of the uid |
| PackageIndex.PackagesDecideUidState | crates/engine/src/services/foreground/cache.rs:135-141 | Exact, Missing or Ambiguous exactly for one, no or several distinct packages |
| PackageIndex.LastEntryWins | crates/engine/src/services/foreground/cache.rs:84-85 | The last entry of a package decides its uid |
| PackageIndex.LastPathWins | crates/engine/src/services/foreground/cache.rs:86-89 | The last entry with a path decides the path of the package |
| PackageIndex.RecordsComeFromEntries | crates/engine/src/services/foreground/cache.rs:83-98 | Nothing is recorded that no entry says |
| PackageIndex.InverseIffSingleUid | crates/engine/src/services/foreground/cache.rs:73-100 | The two maps are mutual inverses if and only if no package is listed with two uids |
| PackageList.ListRoundTrip | crates/engine/src/services/foreground/cache.rs:193-223 | Printing any valid entries and parsing gives the same multiset, sorted by package and uid |
| PackageList.ParsedListsRoundTrip | crates/engine/src/services/foreground/cache.rs:193-223 | For any text, printing what was parsed and parsing again changes nothing |
| PackageList.ParsedIndexKeepsLargestUid | crates/engine/src/services/foreground/cache.rs:83-98 | The index of a parsed list maps each listed package to its largest uid |
| PackageList.SortSorts | crates/engine/src/services/foreground/cache.rs:221 | The sort keeps every entry with its multiplicity and orders it |
| PackageList.SortedIsUnique | crates/engine/src/services/foreground/cache.rs:221 | The sorted order is unique, so the choice of sorting algorithm does not matter |
| PackageList.PrintedEntryParses | crates/engine/src/services/foreground/cache.rs:200-219 | A printed entry reads back as itself |
| PackageList.LastTokensDecide | crates/engine/src/services/foreground/cache.rs:200-219 | A line is read by its last package token and its last uid token, whatever stands around them |
| PackageList.MissingTokenSaysNothing | crates/engine/src/services/foreground/cache.rs:200-219 | Without one of them a line says nothing |
| PackageList.ParseCmdPackageListStdout | crates/engine/src/services/foreground/cache.rs:193-223 | The loops compute the specified list |
| ManagedGames.ParseWriteParse | crates/engine/src/game.rs:116-156 | For every text, parsing what was written from a parse gives that parse again |
| ManagedGames.WrittenTableParses | crates/engine/src/game.rs:116-156 | Every table of valid names, nonempty hex hashes and 64-bit times survives writing and parsing, decimal printing included |
| ManagedGames.WritingIsInjective | crates/engine/src/game.rs:147-156 | Different tables are written differently |
| ManagedGames.LegacyRowNormalises | crates/engine/src/game.rs:120-128 | A four-column row means its three-column form for the three known modes and nothing for any other |
| ManagedGames.RowByChars | crates/engine/src/game.rs:116-145 | Which rows mean an entry, by columns and characters |
| ManagedGames.OtherRowsIgnored | crates/engine/src/game.rs:116-145 | Rows with neither three nor four columns mean nothing |
| ManagedGames.LastValidRowWins | crates/engine/src/game.rs:116-145 | The table holds exactly the last valid row of each package |
| ManagedGames.ParseManagedGameDownscales | crates/engine/src/game.rs:116-145 | The parsing loop computes the specified table |
| ManagedGames.WriteManagedGameDownscales | crates/engine/src/game.rs:147-155 | The writing loop computes the specified text |
| Text.CheckName | crates/engine/src/game.rs:187-212 | The counting loop accepts exactly names of at least two valid segments |
| Text.NameByChars | crates/engine/src/game.rs:187-212 | Which names are accepted, by their characters: at least one dot, and segments that start with a letter, or an underscore where allowed, and continue with letters, digits and underscores |
| Text.I32ByDigits | crates/engine/src/services/foreground/cgroup_v1.rs:155-160 | Digits with at most one sign before them are read as a signed 32-bit number exactly when in range, and as which |
| Text.I32NeedsDigits | crates/engine/src/services/foreground/cgroup_v1.rs:155-160 | Nothing else is read as a signed number |
| Text.UnsignedByDigits | crates/engine/src/services/foreground/cgroup_v2.rs:577-589 | The same for unsigned numbers up to a maximum, with at most a plus sign before the digits |
| Text.UnsignedNeedsDigits | crates/engine/src/services/foreground/cgroup_v2.rs:577-589 | Nothing else is read as an unsigned number |
| Text.NamesArePlain | crates/engine/src/services/foreground/cache.rs:225-253 | Valid names contain nothing a row separator or a white-space split could cut |
| UidDirs.UserAppNameParses | crates/engine/src/services/foreground/cgroup_v2.rs:577-589 | u<user>_a<app> names user * 100000 + 10000 + app exactly when that fits 32 bits |
| UidDirs.UidNameParses | crates/engine/src/services/foreground/cgroup_v2.rs:577-581 | uid_<n> names n exactly when it fits 32 bits |
| UidDirs.OnlyUidNames | crates/engine/src/services/foreground/cgroup_v2.rs:577-589 | No other names are read as a uid |
| UidDirs.UserAndAppRecovered | crates/engine/src/services/foreground/cgroup_v2.rs:583-588 | Division and remainder by 100000 recover user and app if and only if app is below 90000 |
| UidDirs.FilterAcceptsApps | crates/engine/src/services/foreground/source.rs:36-40 | The filter (100000, 10000) accepts such a uid if and only if app modulo 100000 is below 90000 |
| Candidates.ValidUidMeans | crates/engine/src/services/foreground/source.rs:52-66 | Which uids are valid |
| Candidates.FilterCandidateMeans | crates/engine/src/services/foreground/source.rs:67-103 | What the filter makes of a uid for every filter and every listing of the cache |
| ProcMounts.MountsRoundTrip | crates/engine/src/services/foreground/cgroup_v2.rs:523-557 | Any table of nonempty ASCII fields survives octal escaping, printing and parsing |
| ProcMounts.UnescapeEscape | crates/engine/src/services/foreground/cgroup_v2.rs:540-557 | Unescaping undoes escaping |
| ProcMounts.UnescapePlain | crates/engine/src/services/foreground/cgroup_v2.rs:540-557 | A field without backslashes is left alone |
| ProcMounts.SignedEscapeIsRead | crates/engine/src/services/foreground/cgroup_v2.rs:546-550 | A backslash, a plus sign and two octal digits are read as an escape too, whatever follows |
| ProcMounts.UnescapeProcMountField | crates/engine/src/services/foreground/cgroup_v2.rs:540-557 | The byte loop terminates and computes the specified text |
| ProcMounts.FirstCgroup2Found | crates/engine/src/services/foreground/cgroup_v2.rs:510-514 | The first cgroup2 mount of a printed table is found whatever its path, and none is found if there is none |
| ProcMounts.FurtherFieldsIgnored | crates/engine/src/services/foreground/cgroup_v2.rs:523-538 | Fields behind the third change nothing |
| ProcMounts.ShortLineIgnored | crates/engine/src/services/foreground/cgroup_v2.rs:523-538 | A line with fewer than three fields means nothing |
| CgroupEvents.EventsFd.ReadEventsFdPopulated | crates/engine/src/services/foreground/cgroup_v2.rs:463-481 | However the kernel cuts the reads, the loop ends and the state parsed is that of the first 256 bytes |
| CgroupEvents.EventsFd.DrainEventsFd | crates/engine/src/services/foreground/cgroup_v2.rs:443-461 | However the kernel cuts the reads, the loop ends at byte 256 or at the end of the file |
| CgroupEvents.EventsFd.DrainAndRead | crates/engine/src/services/foreground/cgroup_v2.rs:231-232 | Draining first does not change what is read |
| CgroupEvents.BufferAgreesWithFile | crates/engine/src/services/foreground/cgroup_v2.rs:463-497 | Reading the descriptor agrees with reading the file as soon as a complete populated line ends within the first 256 bytes |
| CgroupEvents.ShortFilesAgree | crates/engine/src/services/foreground/cgroup_v2.rs:463-497 | It always agrees for files of at most 256 bytes |
| CgroupEvents.BufferSuffices | crates/engine/src/services/foreground/cgroup_v2.rs:463-497 | Both cases together: when the buffer holds the file or a complete populated line of it |
| CgroupEvents.ParseCgroupEventsPopulated | crates/engine/src/services/foreground/cgroup_v2.rs:559-575 | The loop computes the reading that PopulatedLineDecides and NoPopulatedLine pin down |
| CgroupEvents.PopulatedLineDecides | crates/engine/src/services/foreground/cgroup_v2.rs:559-575 | Whatever follows, the first line whose first word is populated decides: second word 1 is active, 0 inactive, any other or none unknown |
| CgroupEvents.NoPopulatedLine | crates/engine/src/services/foreground/cgroup_v2.rs:559-575 | Without such a line the state is unknown |
| CgroupEvents.PrintedPopulated | crates/engine/src/services/foreground/cgroup_v2.rs:559-575 | The form the kernel prints reads back, whatever lines come before and after |
| Resolver.RunsStayCoherent | crates/engine/src/services/foreground/resolver.rs:105-149 | Main result. Once marker and cache agree they agree after any run, whatever stats and loads fail |
| Resolver.DueCheckCatchesUp | crates/engine/src/services/foreground/resolver.rs:105-149 | A due check with a good stat and load leaves the marker just seen and the index of its snapshot, loading only if the marker differs |
| Resolver.OtherChangesKeep | crates/engine/src/services/foreground/resolver.rs:105-149 | Every other change only counts; a failed load alone is an error |
| Resolver.FirstMarkerTrustsCache | crates/engine/src/services/foreground/resolver.rs:120-140 | A state without a marker becomes coherent at its first successful stat if and only if its cache happens to match |
| Resolver.StatsAreQuotient | crates/engine/src/services/foreground/resolver.rs:116-119 | The number of stats is the number of changes divided by the interval |
| Resolver.ForegroundResolverState.ForegroundChanged | crates/engine/src/services/foreground/resolver.rs:105-149 | New state and outcome of one change, failed stats and loads included |
| Resolver.ResolveV1Payload | crates/engine/src/services/foreground/resolver.rs:183-247 | The first listed pid whose uid resolves gives the package, with one line for each parsed pid up to it; without one every pid has its line and a closing line follows |
| Resolver.NamedIffSomePidResolves | crates/engine/src/services/foreground/resolver.rs:183-247 | A report names a package exactly when some listed pid resolves |
| Resolver.ReportIsDetermined | crates/engine/src/services/foreground/resolver.rs:183-247 | At most one report fits a payload |
| Resolver.ReportUid | crates/engine/src/services/foreground/resolver.rs:266-312 | The inlined tests of the payload loop agree with the single-uid resolver in order and outcome |
| Resolver.PidsLineByLine | crates/engine/src/services/foreground/resolver.rs:194-197 | Which pids a payload lists, line by line: numbers with white space around them; other lines are passed over |
| Resolver.UidResolvesIff | crates/engine/src/services/foreground/resolver.rs:266-312 | A uid resolves exactly to the one unblocked package of an application uid that is no accessibility service, and each other case has its own line |
| Preload.ChunkLoop | crates/engine/src/preload.rs:90-98 | The loop makes the chunk calls in order, stops at the first refused one and succeeds exactly when none is refused; offsets never overflow |
| Preload.ChunksCover | crates/engine/src/preload.rs:90-98 | The chunks are contiguous, nonempty, at most max(chunk, 1) long, cover exactly the range and are as few as possible |
| Preload.EachByteOnce | crates/engine/src/preload.rs:90-98 | Every byte of a covered range lies in exactly one chunk and no chunk reaches outside |
| Preload.PreloadOne | crates/engine/src/preload.rs:76-101 | Answers with the capped length exactly when the target succeeds |
| Preload.LengthByMethod | crates/engine/src/preload.rs:112-120 | Which limit cuts the length, method by method |
| Preload.SucceedsByMethod | crates/engine/src/preload.rs:76-101 | When a target preloads: it opens and the kernel accepts one call for all of it, or for a chunked one each of its chunks |
| Preload.ExecutePreloadPlan | crates/engine/src/preload.rs:55-74 | attempted = preloaded + skipped, the skipped paths are the failing ones in order, and the byte total is the exact sum cut off at the largest 64-bit number |

## Left out

- Notifications between the first scan of a source and the first inotify watch on its roots.
- Coalescing of identical inotify events; it only removes repetitions, which `WatchHandlers.RepeatIsNoop` shows to be harmless.
- Roots that go away or come back: `stale_roots` is kept, but `is_available` and `root_has_usable_layout` are not modelled, and convergence is claimed for roots that stay.
- Convergence of the v2 table behind the automatic source once v1 was available: v2 events are not handled then. `AutomaticConvergence.AutoRunsConverge` covers v1 staying away.
- Runs that go on after a handler returned an error; the run results speak of the state up to it.
- `foreground_source_mut`, `set_filter`, `set_package_cache` and direct writes to public fields: filter and cache are fixed during a run.
- EngineWatch.EngineWatch.HandleInotifyEvent: has no branch for identity-cache hint watches, because the hint list is empty and `Valid` shows that no such watch exists.
- EngineWatch.EngineWatch.AddWatchPath: a path that is not UTF-8 is not modelled separately; it counts as a path that cannot be watched.
- The watcher is split into two classes, `PriorityWatcher` for the three priority tables and `EngineWatch` for the rest, and the generic source parameter is a choice between the two sources it is used with.
- The copy of the path inside each watch: it always equals the key.
- Resolver.ResolveV1Payload: report lines keep their kind and data, not their wording.
- CgroupEvents.EventsFd.ReadEventsFdPopulated: a read that would block counts as the end of the file in the code and does not occur in the model.
- ProcMounts.UnescapeProcMountField: fields are ASCII; slicing a field inside a multi-byte character is not modelled.
- `parse_game_list`, `game_targets_from_installed`, `is_coherent` and the lazy fallback combinators of the resolver: short expressions that would add only easy members.
- The activity manager fallback, socket handling, exec runner, configuration defaults, error texts, `atomic_write_string` and the system calls themselves.
- `coreshift_core` is not part of this model.
