# ipfs-cluster: pin tracking, allocation, replication and metrics

ipfs-cluster keeps a Raft-replicated map from CIDs to the peers that should pin them. Every peer
applies the log to its local copy of the map; a pin tracker at each peer drives the local IPFS
daemon through two bounded queues, two workers and synchronous calls that all run concurrently. The
leader decides which peers get a new pin from metrics that the peers push to it. This project models
these components and proves what they guarantee together.

| file | contents |
|---|---|
| `Types`, `Decimal`, `Sums`, `Weights` | values of api/types.go, decimal numbers, sums and weights |
| `TrackerMap`, `TrackerMachine` | the status map, and the tracker as a state machine with one step per lock section, channel operation or RPC |
| `Reachability`, `PendingWork`, `Drain` | what is reachable without new calls; the inductive invariant; progress and termination of every run |
| `Settling`, `Convergence` | one operation followed through every interleaving; StateSync |
| `Agreement`, `Race` | when Pinned can be trusted, and exactly when an overtaking Untrack breaks it |
| `TrackerContract` | what each tracker call promises about the entries, every status and timeout spelled out, and that the specifications keep it |
| `TrackerSpec`, `PinTracker`, `StateSync` | the tracker's methods and StateSync as classes and methods, and each as a run of the machine |
| `Repair`, `Recovery`, `SelfHealing` | SyncAll on its own; SyncAll and then any number of overlapping Recovers; repair and StateSync together |
| `Allocation`, `Optimality`, `LoadBalance` | the allocator, what its answers guarantee, balance over whole runs |
| `SharedState`, `LogReplay`, `Consensus` | pin map, peer map, log replay and compaction, commit retries |
| `PeerMonitor`, `Freshness` | metric windows, the monitor, the push loop and its timing |
| `GlobalStatus`, `Replication` | merging all peers' reports; from Pin to the statuses at every peer |

Interleavings are sequences of actions of `TrackerMachine`: goroutines form a multiset, and the
environment chooses who moves, how RPCs end, map iteration orders and the clock. The class
`PinTracker.MapPinTracker` has the tracker's methods with their fields updated in place. The new state of
Pin, Unpin, Track, Untrack, Sync, SyncAll, Recover and the two workers equals a function of the old one,
and each of these functions is proved to be one run of the machine.

## Where the code and its stated intent differ

- **Re-pins lose copies.** `allocate` returns the new peers only (cluster.go:987) and `Pin` commits
  only those (cluster.go:668), so live holders see themselves as remote and unpin. After a re-pin the
  item is Pinned at `factor` peers if and only if no holder was live (`Replication.RepinCount`);
  `Replication.RepinLosesACopy` is an instance, with its runs, in which two peers hold the item before
  and only the new one after.
- **`peerMetrics.all` panics** if and only if the window is non-empty: its second loop starts one past
  the end (peer_monitor.go:65). Started at `wlen - 1` it lists newest to oldest as its comment says
  (`PeerMonitor.PeerMetrics.All`, `PeerMonitor.PeerMetrics.AllFrom`).
- **SyncAll asks for recursive pins only** (map_pin_tracker.go:322), although `IsPinned` also accepts
  direct ones. A CID waiting to be unpinned that the daemon holds by a direct pin is forgotten while
  still pinned. Repair unpins everything it drops if and only if there is no such CID
  (`Recovery.RepairUnpins`, `Recovery.DirectPinSurvives`).
- **Agreement with the daemon is not an invariant.** When an Untrack is called while a local Track of
  the same CID is still under way, some run without any failure ends Pinned although the daemon lost
  the item; when the Track has settled, no run does (`Race.RaceExactly`: an if and only if over every
  stage of the Track and any work on other CIDs). As long as each call about a CID starts when
  nothing is in progress for it, Pinned means pinned whenever the CID is idle
  (`Agreement.AgreementWhenIdle`).
- **Repair and StateSync do not commute.** Repair and then a StateSync without failures leave exactly
  the state's CIDs tracked (`SelfHealing.RepairThenSync`). In the other order they do so if and only
  if no CID of the state was in UnpinError: StateSync keeps such an entry and Recover then drops it
  (`SelfHealing.SyncThenRepair`).
- **Metric freshness** has an exact bound. If each metric is delivered and its TTL read within
  `delta` of the timer firing, and the timer is re-armed within `epsilon` of that reading, a peer's
  metric never lapses after its first arrival, in any endless run, if and only if
  `3 delta + 2 epsilon <= TTL - 1s` (`Freshness.FreshForeverExact`; `Freshness.FreshnessExact` for
  finite runs). The second is lost because the expiry is written in whole seconds.
- ipfscluster_test.go:631-636 says that nClusters pins with factor nClusters - 1 leave nClusters local
  pins at every peer; the code gives, and the test then checks, nClusters - 1
  (`LoadBalance.OnePinShort`).
- `peers()` is documented as "including ourselves" (peer_manager.go:102). After replaying a log it lists
  the peer itself if and only if the last operation on that peer, if any, adds it
  (`LogReplay.ListsItself`, with `LogReplay.RemovedIsNotListed` as an instance).

## Model

| member | source | states |
|---|---|---|
| PendingWork.StepKeepsInv | map_pin_tracker.go:119-412 | every step of any goroutine, worker or new call keeps the invariant: Pinning (Unpinning) entries are backed by a pin (unpin) of that CID being enqueued, queued or in flight; each worker runs at most one operation |
| PendingWork.PendingWorkInvariant | map_pin_tracker.go:119-187 | the invariant holds after every run: any interleaving, failures, capacity |
| PendingWork.QuiescentIsStable | map_pin_tracker.go:202-266 | from a blank tracker, in any quiescent state each entry is Pinned, PinError, UnpinError or Remote |
| PendingWork.QueuesBounded | map_pin_tracker.go:68-69 | no run puts more into a queue than its capacity |
| PendingWork.OneByOne | map_pin_tracker.go:76-98 | the pin worker and the unpin worker each have at most one operation in flight |
| Drain.Progress | map_pin_tracker.go:76-98 | the tracker is never stuck: while anything is pending, some step is possible |
| Drain.EveryRunDrains | map_pin_tracker.go:76-98 | every maximal run without new calls reaches quiescence |
| Settling.Settles | map_pin_tracker.go:202-266 | a Track or Untrack, alone on its CID, ends in the status, daemon content and error states it should, under every interleaving with work on other CIDs |
| Convergence.StateSyncConverges | cluster.go:531-562 | from a quiescent tracker, once all work has drained, every CID of the state is tracked, any other is gone or in UnpinError, and errors only follow failures or full queues |
| Convergence.StateSyncExact | cluster.go:531-562 | without failures and overflow the tracked CIDs are exactly the state's; dropped CIDs are not pinned in the daemon and newly tracked local ones are |
| Agreement.AgreementWhenIdle | map_pin_tracker.go:202-412 | in any run, failures included, in which calls about a CID do not overlap and listings are truthful: whenever the CID is idle, Pinned means the daemon holds it; covers Track, Untrack, Recover, Sync, SyncAll and StateSync |
| Race.RaceExactly | map_pin_tracker.go:202-266 | an Untrack called at any stage of a local Track, next to any work on other CIDs: all clean runs end in agreement if and only if the Track had settled |
| Race.SettledFirst | map_pin_tracker.go:257-266 | in the settled case the CID is dropped by the tracker and by the daemon |
| Race.RaceLosesAgreement | map_pin_tracker.go:202-266 | from any quiescent idle tracker some run of Track and Untrack, without failures, ends quiescent and Pinned with the daemon not holding the item |
| Drain.CanDrain | map_pin_tracker.go:76-98 | from every reachable state some continuation without failures reaches quiescence |
| TrackerSpec.SoloIsRun | map_pin_tracker.go:202-412 | a call that runs undisturbed is a run of the machine |
| TrackerSpec.TrackIsRun | map_pin_tracker.go:236-253 | the sequential Track is an interleaving of the machine |
| TrackerSpec.UntrackIsRun | map_pin_tracker.go:257-266 | the same for Untrack |
| TrackerSpec.PinIsRun | map_pin_tracker.go:202-217 | the same for pin() |
| TrackerSpec.UnpinIsRun | map_pin_tracker.go:219-232 | the same for unpin() |
| TrackerSpec.ServePinsIsRun | map_pin_tracker.go:77-86 | the pin worker emptying its queue, with any outcomes, is an interleaving of the machine |
| TrackerSpec.ServeUnpinsIsRun | map_pin_tracker.go:89-98 | the same for the unpin worker |
| TrackerSpec.RecoverIsRun | map_pin_tracker.go:394-412 | the same for Recover |
| TrackerSpec.SyncIsRun | map_pin_tracker.go:294-306 | the same for Sync |
| PinTracker.SyncAllIsRun | map_pin_tracker.go:335-352 | the same for SyncAll with a listing, although its loop takes two steps per CID in map order |
| PinTracker.FailedSyncAllIsRun | map_pin_tracker.go:324-333 | the same for SyncAll when the daemon cannot be contacted |
| TrackerContract.PinMeets | map_pin_tracker.go:202-217 | after a pin: the entry, Pinned or PinError with the message, the daemon's pin, and nothing else changed |
| TrackerContract.UnpinMeets | map_pin_tracker.go:219-232 | after an unpin: the entry gone, or the error its status calls for; nothing else changed |
| TrackerContract.TrackMeets | map_pin_tracker.go:236-253 | after a Track: queued and Pinning, or PinError when the queue is full; or Remote, with an unpin exactly when it was Pinned |
| TrackerContract.UntrackMeets | map_pin_tracker.go:257-266 | after an Untrack: queued and Unpinning, or UnpinError when the queue is full |
| TrackerContract.RecoverMeets | map_pin_tracker.go:394-412 | Recover pins what was in PinError, unpins what was in UnpinError and touches nothing else |
| TrackerContract.SyncOneMeets | map_pin_tracker.go:355-388 | the table of syncStatus: for every status, pinned or not, the entry afterwards; 10 s and 900 s timeouts |
| TrackerContract.SyncMeets | map_pin_tracker.go:294-306 | Sync follows that table, or records the error when the daemon cannot be contacted; an untracked CID the daemon holds becomes UnpinError |
| TrackerContract.SyncAllMeets | map_pin_tracker.go:335-352 | SyncAll follows that table for every tracked CID and adds none |
| TrackerContract.SyncAllKeepsPinning | map_pin_tracker.go:373-380 | SyncAll never removes an entry in status Pinning: it becomes Pinned, stays as it was for 900 s, then becomes PinError |
| TrackerContract.FailAllMeets | map_pin_tracker.go:324-333 | a failed listing puts every entry into the error state its status calls for |
| PinTracker.MapPinTracker.Set | map_pin_tracker.go:125-138 | Unpinned deletes the entry, any other status overwrites it |
| PinTracker.MapPinTracker.Get | map_pin_tracker.go:146-158 | an untracked CID reads as Unpinned |
| PinTracker.MapPinTracker.SetError | map_pin_tracker.go:167-187 | pin-side statuses become PinError, unpin-side and absent ones UnpinError, others stay |
| PinTracker.MapPinTracker.Pin | map_pin_tracker.go:202-217 | whole new state after a synchronous pin and its result |
| PinTracker.MapPinTracker.Unpin | map_pin_tracker.go:219-232 | whole new state after a synchronous unpin and its result |
| PinTracker.MapPinTracker.Track | map_pin_tracker.go:236-253 | whole new state: remote branch, queueing, full queue |
| PinTracker.MapPinTracker.Untrack | map_pin_tracker.go:257-266 | whole new state: queueing, full queue |
| PinTracker.MapPinTracker.PinWorker | map_pin_tracker.go:77-86 | the queue is emptied; each CID ends Pinned and held if the pin at its last place in the queue succeeds, in PinError if it fails |
| TrackerSpec.PinWorkerServes | map_pin_tracker.go:77-86 | the same about the worker's specification, whatever the earlier places of that CID did |
| TrackerSpec.PinWorkerEmpties | map_pin_tracker.go:77-86 | CIDs that are not queued are left alone, and no pin is lost |
| PinTracker.MapPinTracker.UnpinWorker | map_pin_tracker.go:89-98 | the queue is emptied; each CID is dropped and not held if the unpin at its last place succeeds; one that was to be unpinned ends in UnpinError if it fails |
| TrackerSpec.UnpinWorkerServes | map_pin_tracker.go:89-98 | the same about the worker's specification |
| TrackerSpec.UnpinWorkerEmpties | map_pin_tracker.go:89-98 | CIDs that are not queued are left alone, and nothing is pinned |
| PinTracker.MapPinTracker.StatusAll | map_pin_tracker.go:276-284 | every entry exactly once |
| PinTracker.MapPinTracker.SyncStatus | map_pin_tracker.go:355-388 | the entry after comparing it with the daemon's answer, by the full table of statuses, with both timeouts; other entries unchanged |
| PinTracker.MapPinTracker.Sync | map_pin_tracker.go:294-306 | the same for one CID, or the error recorded when the daemon cannot be contacted; queues and daemon unchanged |
| PinTracker.MapPinTracker.Recover | map_pin_tracker.go:394-412 | error entries are retried synchronously, all else is left alone |
| PinTracker.MapPinTracker.SyncAll | map_pin_tracker.go:316-353 | each tracked CID synced on its own; the report holds exactly the CIDs whose status changed or that are in PinError or UnpinError, once each, with their new entry; if the listing fails, every entry is reported |
| StateSync.StateSync | cluster.go:531-562 | the Track and Untrack calls started, the status of each call's CID, and the error return |
| StateSync.StartedExactly | cluster.go:540-555 | each untracked entry of the state is tracked once, each tracked CID outside it untracked once, nothing else, whatever the map orders |
| StateSync.StateSyncIsRun | cluster.go:531-562 | the method is a run of the machine's StateSync, so the convergence theorems apply to it |
| Repair.SyncAllSound | map_pin_tracker.go:335-352 | after SyncAll, Pinned entries are listed, removed ones are not, Remote ones are untouched |
| Repair.SyncAllIdempotent | map_pin_tracker.go:316-388 | a second SyncAll at the same time with the same listing changes nothing and reports exactly the error entries |
| Recovery.RecoverEach | map_pin_tracker.go:394-412 | any number of Recovers of any CIDs at once, in every interleaving with a daemon that does not fail: an error entry recovered at least once ends repaired in tracker and daemon, any other keeps its status and its pin |
| Recovery.RecoverRunExists | map_pin_tracker.go:394-412 | such runs exist for every reachable state |
| Recovery.RepairEntry | map_pin_tracker.go:316-412 | the fate of each CID under SyncAll and then overlapping Recovers, by its status before |
| Recovery.RepairConverges | map_pin_tracker.go:316-412 | from any quiescent tracker and in every interleaving no error status is left; what stays is Remote, or Pinned and pinned; exactly the UnpinError CIDs leave the map |
| Recovery.RepairUnpins | map_pin_tracker.go:316-412 | the dropped CIDs are all unpinned if and only if none of those to be unpinned had a direct pin |
| Recovery.DirectPinSurvives | map_pin_tracker.go:319-323 | a CID to be unpinned that has a direct pin is dropped and stays pinned in every repair |
| Recovery.DirectPinExample | map_pin_tracker.go:319-323 | a tracker with such a CID, and a repair of it |
| SelfHealing.RepairThenSync | cluster.go:531-562 | from any quiescent tracker, a repair and then a StateSync without failures leave exactly the state's CIDs tracked, each Remote, or Pinned and held |
| SelfHealing.SyncThenRepair | cluster.go:531-562 | in the other order this holds if and only if no CID of the state was in UnpinError |
| Allocation.MetricsSorter.Swap | allocator/numpinalloc/numpinalloc.go:90-94 | exchanges two peers and keeps every peer once |
| Allocation.MetricsSorter.Sort | allocator/numpinalloc/numpinalloc.go:37-42 | ascending pin counts, every peer once |
| Allocation.NewMetricsSorter | allocator/numpinalloc/numpinalloc.go:51-71 | exactly the candidates with a live numpin metric that is a number, with that number |
| Allocation.Allocate | allocator/numpinalloc/numpinalloc.go:37-42 | those candidates, once each, least loaded first |
| Allocation.CollectMetrics | cluster.go:910-940 | the last metric received of every current peer, an invalid one without |
| Allocation.RemoveDiscarded | cluster.go:942-948 | the current peers with a metric that is neither invalid nor expired |
| Allocation.MoveCurrent | cluster.go:950-960 | live holders split from candidates, repeated allocations counted once |
| Allocation.WhoIsWho | cluster.go:910-960 | who counts as a live holder and who as eligible, in terms of the peers, the stored allocations and the last metric received |
| Allocation.AllocatePeers | cluster.go:893-988 | succeeds if and only if the factor is positive, leader and metrics are there and 0 < needed <= number of eligible candidates; each error exactly under its own condition; the answer is a correct choice |
| Optimality.MinimalTotal | cluster.go:974-987 | no set of as many eligible peers has a smaller total load |
| Optimality.FactorReached | cluster.go:910-987 | the answer avoids all stored holders, uses live current peers only, and with the live holders makes exactly `factor` peers |
| Optimality.CommittedSize | cluster.go:668 | the committed allocations have `factor` members if and only if no holder was live |
| LoadBalance.AllEligible | cluster.go:942-987 | with fresh metrics and a fresh CID all peers are eligible, and the pin succeeds if and only if 0 < factor <= number of peers |
| LoadBalance.RunKeepsBalance | cluster.go:893-988 | any run of pins of fresh CIDs keeps max load - min load <= 1 and adds exactly `factor` copies per pin |
| LoadBalance.EvenShares | allocator/numpinalloc/numpinalloc.go:37-87 | from equal loads, a run whose copies divide evenly gives each peer the same number |
| LoadBalance.OnePinShort | ipfscluster_test.go:631-636 | N pins with factor N - 1 add exactly N - 1 to every peer |
| Decimal.AtoiSigned | allocator/numpinalloc/numpinalloc.go:58 | signed numbers |
| Decimal.AtoiFails | allocator/numpinalloc/numpinalloc.go:58-61 | what is not a number is an error |
| Decimal.AtoiItoa | informer/numpin/numpin.go:70-74 | the number an informer prints is the one the allocator reads |
| Replication.Pin | cluster.go:650-676 | what is committed for each sign of the factor, and exactly when Pin fails before the commit |
| Replication.PeerOutcome | map_pin_tracker.go:189-253 | an allocated peer ends Pinned with the item; any other ends Remote and gives up a Pinned copy |
| Replication.StatusesFollowAllocations | log_op.go:47-59 | after the operation is applied everywhere, exactly the allocated peers are Pinned, the rest Remote |
| Replication.ReplicationCount | cluster.go:650-676 | a pin without live holders ends Pinned at exactly `factor` peers, Remote at the others; negative factor: Pinned everywhere |
| Replication.GlobalStatusCount | ipfscluster_test.go:655-677 | the global status of the CID shows exactly these numbers |
| Replication.UnpinEndToEnd | cluster.go:684-696 | what LogUnpin commits, replay removes from the shared state, and every peer that applies that log entry ends with the CID out of its tracker and its daemon |
| Replication.UnpinOutcome | log_op.go:60-72 | the same for one peer, whatever the CID was there before |
| Replication.CanUnpin | log_op.go:60-72 | such runs exist for every quiescent tracker |
| Replication.AllocateLostPeer | cluster.go:962-987 | a CID that lost one of two holders is granted one more peer |
| Replication.PinOpStartsTrack | log_op.go:47-59 | applying the log entry of a pin is what starts the Track the trackers then run |
| Replication.RepinCount | cluster.go:987 | after a re-pin, Pinned at `factor` peers if and only if no holder was live; live holders unpin |
| Replication.RepinLosesACopy | cluster.go:668 | three peers, factor 2, the metrics of one holder lost: concrete trackers and runs in which both holders lose the item and only the new peer has it |
| Replication.CanApply | log_op.go:47-59 | every quiescent tracker has a run that applies a pin to its end, so the theorems on counts are not vacuous |
| Replication.PinEndToEnd | cluster.go:650-676 | what Pin decides on, LogPin commits last in the log, replay puts it in the shared state, and the peers that apply that log entry end Pinned or Remote in exactly the numbers asked for |
| SharedState.MapState.Add | state/mapstate/map_state.go:31-36 | overwrites the entry of the CID |
| SharedState.MapState.Rm | state/mapstate/map_state.go:39-44 | removes the entry |
| SharedState.MapState.Get | state/mapstate/map_state.go:47-55 | the stored entry, or the zero value for an absent CID |
| SharedState.MapState.List | state/mapstate/map_state.go:66-74 | every entry exactly once |
| SharedState.PeerManager.AddPeer | peer_manager.go:32-49 | stores the address under its peer ID, or fails and changes nothing |
| SharedState.PeerManager.RmPeer | peer_manager.go:51-60 | removes the peer |
| SharedState.PeerManager.ResetPeers | peer_manager.go:84-89 | only ourselves remain |
| SharedState.PeerManager.Peers | peer_manager.go:103-111 | every peer exactly once |
| SharedState.PeerManager.PeersAddrs | peer_manager.go:114-124 | the address of every peer but ourselves, once each |
| SharedState.PeerManager.AddFromMultiaddrs | peer_manager.go:130-139 | stores the addresses before the first bad one, the last one of each peer; succeeds if and only if there is no bad one |
| LogReplay.Node.ApplyTo | log_op.go:38-100 | for each of the four operations and unknown ones: the new pin map, the new peer map, the Track or Untrack call made, and exactly when it panics |
| LogReplay.LastWriterWins | log_op.go:38-100 | replay gives every CID and every peer its last operation's effect; peer operations never change the pin map |
| LogReplay.ListsItself | peer_manager.go:102-111 | after replay, peers() lists the peer itself if and only if the last operation on it, if any, adds it |
| LogReplay.RemovedIsNotListed | peer_manager.go:51-60 | a one-operation log after which it does not |
| LogReplay.CompactionPreservesReplay | log_op.go:46-98 | dropping any superseded operations does not change any replay |
| LogReplay.DropEarlierCopy | log_op.go:73-95 | an operation committed again later may be dropped |
| Consensus.ConsensusLog.LogOpCid | consensus.go:243-282 | the call succeeds if and only if some attempt is redirected or commits, and ends at the first one; what the log then holds |
| Consensus.ConsensusLog.LogPin | consensus.go:286-288 | the same for pins |
| Consensus.ConsensusLog.LogUnpin | consensus.go:291-293 | the same for unpins |
| Consensus.ConsensusLog.LogAddPeer | consensus.go:297-340 | log, Raft peer set and error at the attempt the loop ends with |
| Consensus.ConsensusLog.LogRmPeer | consensus.go:344-386 | the same |
| Consensus.CidCommittedOnce | consensus.go:243-282 | on any peer, a call succeeds if and only if some attempt is redirected or commits; it ends at the first such attempt and appends one copy exactly when that is a commit of its own, otherwise none |
| Consensus.LeaderCommitsOnce | consensus.go:243-282 | on the leader: one copy on success, none on error |
| Consensus.PeerEnds | consensus.go:297-386 | on any peer, LogAddPeer and LogRmPeer end at the first attempt that is redirected, finds a bad address, or commits and changes the Raft set; error, log and Raft set there |
| Consensus.PeerGivesUp | consensus.go:297-386 | without such an attempt: an error, an unchanged Raft set, one copy per commit |
| Consensus.NoAttemptNoCommit | consensus.go:245-281 | with no retries configured a call would succeed and commit nothing |
| Consensus.PeerCopies | consensus.go:297-386 | a successful leader-side call appends between 1 and CommitRetries copies, the last one at the end, and changes the Raft peers once |
| Consensus.PeerCopiesHarmless | consensus.go:297-386 | replay is as if only the last copy had been committed, whatever else is interleaved |
| Consensus.AddPeerHarmless | consensus.go:297-340 | both for LogAddPeer: the peer is in the Raft set and replay is as with one copy |
| Consensus.RmPeerHarmless | consensus.go:344-386 | both for LogRmPeer |
| Consensus.PeerFailure | consensus.go:297-386 | a failed call leaves copies behind exactly when some attempt was committed |
| PeerMonitor.PeerMetrics.Add | peer_monitor.go:29-42 | the window holds the last min(n, capacity) metrics |
| PeerMonitor.PeerMetrics.Latest | peer_monitor.go:44-51 | the most recent metric ever added |
| PeerMonitor.PeerMetrics.AllFrom | peer_monitor.go:54-69 | with the intended bound the last min(n, capacity) metrics are listed newest to oldest; with one out of range it panics |
| PeerMonitor.PeerMetrics.All | peer_monitor.go:54-69 | as written it panics if and only if something was ever added |
| PeerMonitor.StdPeerMonitor.LogMetric | peer_monitor.go:148-166 | the monitor refines a plain log: one more entry |
| PeerMonitor.StdPeerMonitor.LastMetrics | peer_monitor.go:195-214 | exactly one entry per peer whose most recent metric of that name is valid and unexpired, equal to it; the window size and other names do not matter |
| Freshness.PushInformerMetrics | cluster.go:195-230 | what arrives at the monitor and when the timer fires next, with leader errors, failed calls and arbitrary delays |
| Freshness.RoundByRound | cluster.go:195-230 | each round: the metric sent, its whole-second expiry, when it arrives, and when the timer fires next; one second without a leader |
| Freshness.PushedIsUsable | informer/numpin/numpin.go:70-76 | what a peer pushes is, while unexpired, a metric the allocator accepts, and it reads the peer's number of pins from it |
| Freshness.FreshForeverExact | cluster.go:195-230 | the newest metric is unexpired at every time after the first arrival, in every endless run, if and only if the bound holds |
| Freshness.FreshnessExact | cluster.go:195-230 | the same between the first and the last arrival of finite runs |
| Freshness.FreshThroughout | api/types.go:398-418 | under the bound the newest metric is unexpired at every instant between the first and the last arrival |
| Freshness.GapBeyondBound | api/types.go:398-402 | beyond it, two timely pushes with a gap between them |
| Freshness.MonitorStaysFresh | peer_monitor.go:195-214 | LastMetrics then holds an unexpired entry of the peer, whatever else is logged |
| Freshness.MonitorShows | peer_monitor.go:195-214 | with any other traffic logged, LastMetrics has an entry of the peer if and only if its newest arrival is unexpired |
| Freshness.FiringsAdvance | cluster.go:227-228 | the rounds cover all time: the timer advances by a fixed step each round |
| GlobalStatus.GlobalPinInfoSlice | cluster.go:820-877 | for any replies: one record per reported CID; a peer that could not be reached shows as ClusterError with its message, any other with its own last report |
| GlobalStatus.AggregatedIsTransposed | cluster.go:820-877 | when each peer reports distinct CIDs under its own ID: exactly the reporters' entries plus one ClusterError entry, with its error message, per errored peer |
| GlobalStatus.TransposedUnique | cluster.go:871-873 | the records do not depend on reply or map iteration order |
| GlobalStatus.GlobalPinInfoCid | cluster.go:781-818 | every member has an entry: its reply, with the error text if there is one, or ClusterError if it could not be contacted |
| GlobalStatus.UncontactableIsClusterError | cluster.go:800-810 | such a member is counted under ClusterError and under no other status |

## Left out

- Settling.Settles: follows one Track or Untrack at a time on its CID, without a concurrent SyncAll; for the other operations Agreement.AgreementWhenIdle states agreement with the daemon, Recovery.RecoverEach the outcome of overlapping Recovers, and Race.RaceExactly what an overlapping Untrack can do.
- Replication.ReplicationCount: assumes, like its source, that every peer applies the operation and that it is the only one on its CID while it drains.
- Replication.StatusesFollowAllocations: the same; Replication.PinEndToEnd connects it to the log.
- Replication.GlobalStatusCount: assumes that every peer answers the status request.
- StateSync.StateSync: the statuses it returns are read before any goroutine it started has run, one of the orders the source allows.
- SharedState.PeerManager.RmPeer: without the delayed reset and shutdown of a peer that removes itself.
- Freshness.MonitorStaysFresh: takes as given that the log holds what has arrived from the peer so far, with any other traffic in between.
- Consensus.CidCommittedOnce: a commit that returns an error is taken not to have reached the log (consensus.go:263), and a redirected call that fails is taken not to add a copy of its own.
- Freshness.FreshForeverExact: assumes a TTL above one second, one clock, a stable leader and exact halving of the remaining TTL (nanosecond truncation is ignored).
- PinTracker.MapPinTracker.SyncAll: reads the clock once per call instead of at every entry; the state machine lets it differ at every step.
- GlobalStatus.GlobalPinInfoSlice: the inner maps that records share by reference in Go are values here, and the clock is read once.
- Allocation.MetricsSorter.Sort: `sort.Sort` is shown as an insertion sort through Len, Less and Swap; the order among equal loads is not specified.
- Decimal.AtoiItoa: numbers beyond a 64-bit int are refused by Atoi and not covered.
- Queues of capacity 0, for which a Go send could still hand an item to a waiting worker; the configured size is not 0.
- CIDs, peer IDs and multiaddresses are identified with their string encodings, so the round trips between native and serial forms are not stated.
- The daemon answers truthfully about what it holds; how the HTTP connector reads `pin ls` error bodies is not part of this model.
- Waiting for a leader inside redirectToLeader, Raft itself, snapshots and rollback: an agreed log and the outcome of each call are given.
- Shutdown, self-removal, bootstrapping and readiness: the modelled runs contain no shutdown.
- HTTP servers, REST routes, the IPFS proxy, RPC forwarding, configuration, logging and command-line tools: input and output only.
- Alerts and rebalancing, which the repository declares but does not implement.
