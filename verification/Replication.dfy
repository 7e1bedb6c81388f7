/** From Cluster.Pin to the statuses at every peer. */
module Replication {
  import opened Types
  import opened TrackerMap
  import opened TrackerMachine
  import opened Settling
  import opened Allocation
  import Decimal
  import opened Optimality
  import opened Reachability
  import opened LogReplay
  import opened Consensus
  import GlobalStatus
  import TrackerSpec
  import Race

  /** What Pin may commit for `c`. */
  ghost predicate PinArg(v: View, c: Cid, arg: CidArg) {
    && arg.cid == c
    && (if v.factor < 0 then arg.everywhere && arg.allocations == []
        else v.factor > 0 && !arg.everywhere && Chosen(v, c, arg.allocations))
  }

  /** Cluster.Pin up to the commit; None is the error return. */
  method Pin(v: View, c: Cid) returns (r: Option<CidArg>)
    ensures r.Some? ==> PinArg(v, c, r.value)
    ensures r.Some? <==>
      || v.factor < 0
      || (v.factor > 0 && v.leader && v.metrics.Some? && 0 < Needed(v, c) <= |Eligible(v, c)|)
    ensures r.Some? ==> r.value.cid == c && (r.value.everywhere <==> v.factor < 0)
    ensures r.Some? && v.factor < 0 ==> r.value.allocations == []
    ensures r.Some? && v.factor > 0 ==> Chosen(v, c, r.value.allocations)
  {
    if v.factor == 0 {
      return None;
    } else if v.factor < 0 {
      return Some(CidArg(c, [], true));
    }
    var allocs := AllocatePeers(v, c);
    if allocs.Refused? {
      return None;
    }
    r := Some(CidArg(c, allocs.peers, false));
  }

  /** The operation is applied at every peer: a Track of `arg` starts, and the tracker of `p` then
      runs `runs[p]`, in which all other work is about other CIDs, until `arg.cid` is idle again. */
  ghost predicate AppliedAt(before: State, arg: CidArg, acts: seq<Action>, p: PeerId) {
    && before.self == p && Idle(before, arg.cid) && CallsQuiet(acts, arg.cid)
    && IsRun(Add(before, TrackStart(p, arg)), acts)
    && Idle(Exec(Add(before, TrackStart(p, arg)), acts), arg.cid)
    && !Exec(Add(before, TrackStart(p, arg)), acts).trouble
  }

  /** Such a run exists whenever the tracker is quiescent. */
  lemma CanApply(s: State, arg: CidArg, p: PeerId) returns (acts: seq<Action>)
    requires s.self == p && Quiescent(s) && !s.pinBusy && !s.unpinBusy && s.capacity > 0 && !s.trouble
    ensures AppliedAt(s, arg, acts, p)
  {
    hide IsRun, Exec, Reaches;
    var end := CanTrack(s, arg);
    acts := RunOf(Add(s, TrackStart(p, arg)), end);
  }

  lemma RunOf(s: State, end: State) returns (acts: seq<Action>)
    requires Reaches(s, end)
    ensures NoCalls(acts) && IsRun(s, acts) && Exec(s, acts) == end
  {
    hide IsRun, Exec;
    acts :| NoCalls(acts) && IsRun(s, acts) && Exec(s, acts) == end;
  }

  lemma CanTrack(s: State, arg: CidArg) returns (end: State)
    requires Quiescent(s) && !s.pinBusy && !s.unpinBusy && s.capacity > 0 && !s.trouble
    ensures Reaches(Add(s, TrackStart(s.self, arg)), end) && Quiescent(end) && !end.trouble
  {
    hide Reaches;
    if IsRemote(s.self, arg) {
      end := TrackerSpec.TrackSpec(s, arg, Done, 0.0);
      TrackerSpec.TrackIsRun(s, arg, Env(Done, None, [], 0.0));
    } else {
      var s1 := Race.Tracked(s, arg);
      Race.TrackServed(s, arg);
      assert s1.threads == multiset{} + multiset{Race.InFlight(arg)};
      Race.LateResult(s1, multiset{}, arg);
      end := s1.(status := Race.Entry(s1, arg.cid, Pinned), pinBusy := false, threads := multiset{});
      ReachesOn(Add(s, TrackSet(arg)), s1, end);
    }
  }

  ghost predicate AppliedEverywhere(before: map<PeerId, State>, arg: CidArg, runs: map<PeerId, seq<Action>>) {
    before.Keys == runs.Keys && forall p :: p in before ==> AppliedAt(before[p], arg, runs[p], p)
  }

  ghost function Final(before: map<PeerId, State>, arg: CidArg, runs: map<PeerId, seq<Action>>, p: PeerId): State
    requires AppliedEverywhere(before, arg, runs) && p in before
  {
    Exec(Add(before[p], TrackStart(p, arg)), runs[p])
  }

  ghost function Reporting(before: map<PeerId, State>, arg: CidArg, runs: map<PeerId, seq<Action>>,
                           st: TrackerStatus): set<PeerId>
    requires AppliedEverywhere(before, arg, runs)
  {
    set p | p in before && StatusOf(Final(before, arg, runs, p).status, arg.cid) == st
  }

  /** Without failures an allocated peer ends Pinned with the item in its daemon; any other ends
      Remote, and no longer holds the item if it was Pinned before. */
  lemma PeerOutcome(before: State, arg: CidArg, acts: seq<Action>, p: PeerId)
    requires AppliedAt(before, arg, acts, p)
    ensures var s' := Exec(Add(before, TrackStart(p, arg)), acts);
      if arg.everywhere || p in arg.allocations then
        StatusOf(s'.status, arg.cid) == Pinned && Holds(s'.daemon, arg.cid)
      else
        StatusOf(s'.status, arg.cid) == Remote
        && (StatusOf(before.status, arg.cid) == Pinned ==> !Holds(s'.daemon, arg.cid))
  {
    var t, was := TrackStart(p, arg), StatusOf(before.status, arg.cid) == Pinned;
    var s, g := Add(before, t), Track(arg, was);
    assert s.threads - multiset{t} == before.threads;
    assert At(s, g, Running(t));
    Settles(s, g, Running(t), acts);
    KeepsSelf(s, acts);
  }

  lemma {:induction false} KeepsSelf(s: State, acts: seq<Action>)
    requires IsRun(s, acts)
    ensures Exec(s, acts).self == s.self
    decreases |acts|
  {
    hide Next, ApplyUpdate, DaemonAfter, Trouble;
    if acts != [] {
      KeepsSelf(Step(s, acts[0]), acts[1..]);
    }
  }

  /** Exactly the allocated peers report Pinned, all others Remote. */
  lemma StatusesFollowAllocations(before: map<PeerId, State>, arg: CidArg, runs: map<PeerId, seq<Action>>)
    requires AppliedEverywhere(before, arg, runs)
    ensures Reporting(before, arg, runs, Pinned)
         == if arg.everywhere then before.Keys else ToSet(arg.allocations) * before.Keys
    ensures Reporting(before, arg, runs, Remote) == before.Keys - Reporting(before, arg, runs, Pinned)
  {
    hide AppliedAt, Exec, IsRun;
    forall p | p in before
      ensures StatusOf(Final(before, arg, runs, p).status, arg.cid)
           == if arg.everywhere || p in arg.allocations then Pinned else Remote
    {
      PeerOutcome(before[p], arg, runs[p], p);
    }
  }

  /** A pin without live holders ends Pinned at exactly `factor` peers and Remote at the others; with
      a negative factor it ends Pinned everywhere. */
  lemma ReplicationCount(v: View, c: Cid, arg: CidArg, before: map<PeerId, State>, runs: map<PeerId, seq<Action>>)
    requires PinArg(v, c, arg) && AppliedEverywhere(before, arg, runs) && before.Keys == v.peers
    requires Holders(v, c) == {}
    ensures v.factor > 0 ==> |Reporting(before, arg, runs, Pinned)| == v.factor
    ensures v.factor > 0 ==> |Reporting(before, arg, runs, Remote)| == |v.peers| - v.factor
    ensures v.factor < 0 ==> Reporting(before, arg, runs, Pinned) == v.peers
  {
    StatusesFollowAllocations(before, arg, runs);
    if v.factor > 0 {
      CountPinned(v, c, arg, before, runs);
    }
  }

  lemma CountPinned(v: View, c: Cid, arg: CidArg, before: map<PeerId, State>, runs: map<PeerId, seq<Action>>)
    requires PinArg(v, c, arg) && AppliedEverywhere(before, arg, runs) && before.Keys == v.peers && v.factor > 0
    ensures |Reporting(before, arg, runs, Pinned)| == Needed(v, c)
    ensures |Reporting(before, arg, runs, Remote)| == |v.peers| - Needed(v, c)
  {
    StatusesFollowAllocations(before, arg, runs);
    DistinctSize(arg.allocations);
    assert ToSet(arg.allocations) <= Eligible(v, c) <= v.peers;
    assert ToSet(arg.allocations) * before.Keys == ToSet(arg.allocations);
  }

  // ---- from the log to the trackers -----------------------------------------------------------------

  /** The goroutine that serves a call which applying the log makes to the tracker. */
  function Served(self: PeerId, call: TrackerCall): Thread {
    match call
    case CallTrack(arg) => TrackStart(self, arg)
    case CallUntrack(c) => UntrackSet(c)
  }

  function ServedAll(self: PeerId, calls: seq<TrackerCall>): multiset<Thread> {
    if calls == [] then multiset{} else multiset{Served(self, calls[0])} + ServedAll(self, calls[1..])
  }

  /** Peer `p` applies `op` of the log, and its tracker runs until `c` is idle again. */
  ghost predicate OpAppliedAt(before: State, op: LogOp, c: Cid, acts: seq<Action>, p: PeerId) {
    var s0 := Beside(before, ServedAll(p, CallsOf(op)));
    && before.self == p && Idle(before, c) && CallsQuiet(acts, c)
    && IsRun(s0, acts) && Idle(Exec(s0, acts), c) && !Exec(s0, acts).trouble
  }

  ghost predicate OpAppliedEverywhere(before: map<PeerId, State>, op: LogOp, c: Cid, runs: map<PeerId, seq<Action>>) {
    before.Keys == runs.Keys && forall p :: p in before ==> OpAppliedAt(before[p], op, c, runs[p], p)
  }

  lemma PinOpStartsTrack(before: map<PeerId, State>, arg: CidArg, runs: map<PeerId, seq<Action>>)
    requires OpAppliedEverywhere(before, PinOp(arg), arg.cid, runs)
    ensures AppliedEverywhere(before, arg, runs)
  {
    hide IsRun, Exec;
    forall p | p in before
      ensures AppliedAt(before[p], arg, runs[p], p)
    {
      assert OpAppliedAt(before[p], PinOp(arg), arg.cid, runs[p], p);
      assert CallsOf(PinOp(arg))[1..] == [];
      assert ServedAll(p, CallsOf(PinOp(arg))) == multiset{TrackStart(p, arg)};
    }
  }

  /** From Pin to the trackers. What Pin decides on, LogPin commits as the last operation of the log;
      replay puts it in the shared state; the peers that apply that operation end Pinned or Remote as
      allocated. */
  lemma PinEndToEnd(v: View, arg: CidArg, attempts: seq<Attempt>, log: seq<LogOp>, r: Replica,
                    before: map<PeerId, State>, runs: map<PeerId, seq<Action>>)
    requires PinArg(v, arg.cid, arg) && Holders(v, arg.cid) == {}
    requires attempts != [] && NeverRedirects(attempts) && !LogCid(PinOp(arg), attempts, false).err
    requires var log' := log + LogCid(PinOp(arg), attempts, false).suffix;
      log' != [] ==> before.Keys == v.peers && OpAppliedEverywhere(before, log'[|log'| - 1], arg.cid, runs)
    ensures var log' := log + LogCid(PinOp(arg), attempts, false).suffix;
      log' != [] && log'[|log'| - 1] == PinOp(arg)
      && (Replay(log', r).Some? ==> Entry(Replay(log', r).value.pins, arg.cid) == Some(arg))
    ensures AppliedEverywhere(before, arg, runs)
    ensures v.factor > 0 ==> |Reporting(before, arg, runs, Pinned)| == v.factor
    ensures v.factor > 0 ==> |Reporting(before, arg, runs, Remote)| == |v.peers| - v.factor
    ensures v.factor < 0 ==> Reporting(before, arg, runs, Pinned) == v.peers
  {
    hide PinArg, Holders, OpAppliedEverywhere, AppliedEverywhere, Reporting, Replay, LogCid;
    var op := PinOp(arg);
    LeaderCommitsOnce(op, attempts, false);
    var log' := log + LogCid(op, attempts, false).suffix;
    assert log'[|log'| - 1] == op;
    LastWriterWins(log', r, arg.cid, "");
    PinOpStartsTrack(before, arg, runs);
    ReplicationCount(v, arg.cid, arg, before, runs);
  }

  /** From Unpin to the trackers. What LogUnpin commits is the last operation of the log; replay removes
      the CID from the shared state; at the peers that apply that operation it leaves the tracker and
      the daemon. */
  lemma UnpinEndToEnd(arg: CidArg, attempts: seq<Attempt>, log: seq<LogOp>, r: Replica,
                      before: map<PeerId, State>, runs: map<PeerId, seq<Action>>)
    requires attempts != [] && NeverRedirects(attempts) && !LogCid(UnpinOp(arg), attempts, false).err
    requires var log' := log + LogCid(UnpinOp(arg), attempts, false).suffix;
      log' != [] ==> OpAppliedEverywhere(before, log'[|log'| - 1], arg.cid, runs)
    ensures var log' := log + LogCid(UnpinOp(arg), attempts, false).suffix;
      log' != [] && log'[|log'| - 1] == UnpinOp(arg)
      && (Replay(log', r).Some? ==> arg.cid !in Replay(log', r).value.pins)
    ensures OpAppliedEverywhere(before, UnpinOp(arg), arg.cid, runs)
    ensures forall p :: p in before ==>
      var s' := OpFinal(before, UnpinOp(arg), arg.cid, runs, p);
      arg.cid !in s'.status && !Holds(s'.daemon, arg.cid)
  {
    hide OpAppliedEverywhere, Replay, LogCid, OpFinal;
    var op := UnpinOp(arg);
    LeaderCommitsOnce(op, attempts, false);
    var log' := log + LogCid(op, attempts, false).suffix;
    assert log'[|log'| - 1] == op;
    LastWriterWins(log', r, arg.cid, "");
    forall p | p in before
      ensures var s' := OpFinal(before, op, arg.cid, runs, p); arg.cid !in s'.status && !Holds(s'.daemon, arg.cid)
    {
      UnpinOutcome(before, arg, runs, p);
    }
  }

  ghost function OpFinal(before: map<PeerId, State>, op: LogOp, c: Cid, runs: map<PeerId, seq<Action>>, p: PeerId): State
    requires OpAppliedEverywhere(before, op, c, runs) && p in before
  {
    Exec(Beside(before[p], ServedAll(p, CallsOf(op))), runs[p])
  }

  /** Whatever the CID was before at this peer. */
  lemma UnpinOutcome(before: map<PeerId, State>, arg: CidArg, runs: map<PeerId, seq<Action>>, p: PeerId)
    requires OpAppliedEverywhere(before, UnpinOp(arg), arg.cid, runs) && p in before
    ensures var s' := OpFinal(before, UnpinOp(arg), arg.cid, runs, p);
      arg.cid !in s'.status && !Holds(s'.daemon, arg.cid)
  {
    hide IsRun, Exec, At;
    var c, u := arg.cid, UntrackSet(arg.cid);
    assert OpAppliedAt(before[p], UnpinOp(arg), c, runs[p], p);
    ServesUntrack(p, arg);
    UntrackCalled(before[p], c);
    Settles(Beside(before[p], multiset{u}), Untrack(c, true), Running(u), runs[p]);
  }

  lemma ServesUntrack(p: PeerId, arg: CidArg)
    ensures ServedAll(p, CallsOf(UnpinOp(arg))) == multiset{UntrackSet(arg.cid)}
  {
    assert CallsOf(UnpinOp(arg))[1..] == [];
  }

  lemma UntrackCalled(s: State, c: Cid)
    requires Idle(s, c)
    ensures At(Beside(s, multiset{UntrackSet(c)}), Untrack(c, true), Running(UntrackSet(c)))
  {
    assert Beside(s, multiset{UntrackSet(c)}).threads - multiset{UntrackSet(c)} == s.threads;
  }

  /** Such a run exists whenever the tracker is quiescent. */
  lemma CanUnpin(s: State, arg: CidArg, p: PeerId) returns (acts: seq<Action>)
    requires s.self == p && Quiescent(s) && !s.pinBusy && !s.unpinBusy && s.capacity > 0 && !s.trouble
    ensures OpAppliedAt(s, UnpinOp(arg), arg.cid, acts, p)
  {
    hide IsRun, Exec, Reaches;
    var c, env := arg.cid, Env(Done, None, [], 0.0);
    ServesUntrack(p, arg);
    var s1 := TrackerSpec.UntrackSpec(s, c, 0.0);
    TrackerSpec.UntrackIsRun(s, c, env);
    TrackerSpec.ServeUnpinsIsRun(s1, [Done], 0.0);
    var end := TrackerSpec.ServeUnpins(s1, [Done], 0.0);
    assert [Done][1..] == [] && s1.unpinCh[1..] == [];
    ReachesOn(Add(s, UntrackSet(c)), s1, end);
    acts := RunOf(Add(s, UntrackSet(c)), end);
  }

  /** Every peer answers a status request for `c` with its tracker's entry. */
  ghost predicate AllAnswer(before: map<PeerId, State>, arg: CidArg, runs: map<PeerId, seq<Action>>,
                            members: seq<PeerId>, replies: seq<GlobalStatus.CidReply>, now: Time) {
    && AppliedEverywhere(before, arg, runs)
    && Distinct(members) && ToSet(members) == before.Keys && |members| == |replies|
    && (forall i :: 0 <= i < |members| ==> members[i] in before && replies[i].error == None)
    && (forall i :: 0 <= i < |members| ==>
         replies[i].info == Lookup(Final(before, arg, runs, members[i]).status, members[i], arg.cid, now))
  }

  lemma RecordShowsStatuses(before: map<PeerId, State>, arg: CidArg, runs: map<PeerId, seq<Action>>,
                            members: seq<PeerId>, replies: seq<GlobalStatus.CidReply>, now: Time,
                            pin: GlobalStatus.GlobalPinInfo, st: TrackerStatus)
    requires AllAnswer(before, arg, runs, members, replies, now)
    requires GlobalStatus.CidRecord(pin, arg.cid, members, replies, now)
    ensures GlobalStatus.PeersWith(pin, st) == Reporting(before, arg, runs, st)
  {
    hide AppliedEverywhere, Final;
    forall p | p in before
      ensures p in pin.peerMap
      ensures pin.peerMap[p].status == StatusOf(Final(before, arg, runs, p).status, arg.cid)
    {
      assert p in ToSet(members);
      var i :| 0 <= i < |members| && members[i] == p;
      assert GlobalStatus.LastAt(members, i, |members|);
    }
  }

  /** The global status of a CID pinned without live holders shows `factor` peers Pinned and the
      others Remote. */
  lemma GlobalStatusCount(v: View, arg: CidArg, before: map<PeerId, State>, runs: map<PeerId, seq<Action>>,
                          members: seq<PeerId>, replies: seq<GlobalStatus.CidReply>, now: Time,
                          pin: GlobalStatus.GlobalPinInfo)
    requires PinArg(v, arg.cid, arg) && AllAnswer(before, arg, runs, members, replies, now)
    requires before.Keys == v.peers && Holders(v, arg.cid) == {}
    requires GlobalStatus.CidRecord(pin, arg.cid, members, replies, now)
    ensures v.factor > 0 ==> |GlobalStatus.PeersWith(pin, Pinned)| == v.factor
    ensures v.factor > 0 ==> |GlobalStatus.PeersWith(pin, Remote)| == |v.peers| - v.factor
    ensures v.factor < 0 ==> GlobalStatus.PeersWith(pin, Pinned) == v.peers
  {
    RecordShowsStatuses(before, arg, runs, members, replies, now, pin, Pinned);
    RecordShowsStatuses(before, arg, runs, members, replies, now, pin, Remote);
    ReplicationCount(v, arg.cid, arg, before, runs);
  }

  /** A re-pin is meant to restore `factor` copies, but commits only the new peers. The live holders
      turn Remote and unpin: the item ends Pinned at `factor` peers if and only if none was live. */
  lemma RepinCount(v: View, c: Cid, arg: CidArg, before: map<PeerId, State>, runs: map<PeerId, seq<Action>>)
    requires PinArg(v, c, arg) && AppliedEverywhere(before, arg, runs) && before.Keys == v.peers && v.factor > 0
    ensures |Reporting(before, arg, runs, Pinned)| == v.factor <==> Holders(v, c) == {}
    ensures forall p :: p in Holders(v, c) ==>
      && StatusOf(Final(before, arg, runs, p).status, c) == Remote
      && (StatusOf(before[p].status, c) == Pinned ==> !Holds(Final(before, arg, runs, p).daemon, c))
  {
    CountPinned(v, c, arg, before, runs);
    FactorReached(v, c, arg.allocations);
    forall p | p in Holders(v, c)
      ensures StatusOf(Final(before, arg, runs, p).status, c) == Remote
      ensures StatusOf(before[p].status, c) == Pinned ==> !Holds(Final(before, arg, runs, p).daemon, c)
    {
      assert p in ToSet(Current(v, c)) && p in before;
      assert p in arg.allocations <==> p in ToSet(arg.allocations);
      PeerOutcome(before[p], arg, runs[p], p);
    }
  }

  /** Peers a, b and d, factor 2, "c" pinned at a and b, and b gone: the re-pin chooses d. */
  const A_LIVE := Metric(NUMPIN, "a", "1", 100, true)
  const D_LIVE := Metric(NUMPIN, "d", "0", 100, true)
  const LOST_PEER := View(2, Some(map["c" := CidArg("c", ["a", "b"], false)]), {"a", "b", "d"}, true,
                          Some([A_LIVE, D_LIVE]), 0.0, 0.0)

  lemma LostPeerMetrics()
    ensures LastOf([A_LIVE, D_LIVE], "a") == A_LIVE && LastOf([A_LIVE, D_LIVE], "d") == D_LIVE
    ensures LastOf([A_LIVE, D_LIVE], "b") == INVALID
  {
    assert [A_LIVE, D_LIVE][..1] == [A_LIVE] && [A_LIVE][..0] == [];
    assert LastOf([A_LIVE], "a") == A_LIVE && LastOf([A_LIVE], "b") == INVALID;
  }

  lemma LostPeerChoice()
    ensures Chosen(LOST_PEER, "c", ["d"]) && Holders(LOST_PEER, "c") == {"a"}
  {
    LostPeerMetrics();
    assert Decimal.ParseDigits("0"[..0]) == Some(0);
    assert Decimal.Atoi("0") == Some(0);
    assert Live(LOST_PEER).Keys == {"a", "d"};
    assert Holders(LOST_PEER, "c") == {"a"};
    assert Eligible(LOST_PEER, "c") == {"d"};
  }

  /** The re-pin is granted: one more peer is needed, and "d" is there. */
  method AllocateLostPeer() returns (r: AllocResult)
    ensures r == Allocated(["d"])
  {
    LostPeerMetrics();
    LostPeerChoice();
    LostPeerNeedsOne();
    hide LOST_PEER, Holders, Eligible;
    r := AllocatePeers(LOST_PEER, "c");
    OnlyChoice(r.peers);
  }

  lemma LostPeerNeedsOne()
    ensures LOST_PEER.factor > 0 && LOST_PEER.leader && LOST_PEER.metrics.Some?
    ensures Needed(LOST_PEER, "c") == 1 && Eligible(LOST_PEER, "c") == {"d"}
  {
    LostPeerMetrics();
    LostPeerChoice();
    assert Decimal.ParseDigits("0"[..0]) == Some(0);
    assert Live(LOST_PEER).Keys == {"a", "d"};
  }

  lemma OnlyChoice(peers: seq<PeerId>)
    requires Chosen(LOST_PEER, "c", peers)
    ensures peers == ["d"]
  {
    LostPeerNeedsOne();
    assert peers[0] in ToSet(peers);
  }

  function Standing(p: PeerId, status: StatusMap, daemon: Daemon): State {
    State(p, 1, status, [], [], false, false, multiset{}, daemon, false)
  }

  function Holding(p: PeerId): State {
    Standing(p, map["c" := PinInfo("c", p, Pinned, 0.0, "")], map["c" := Recursive])
  }

  function BeforeRepin(): map<PeerId, State> {
    map["a" := Holding("a"), "b" := Holding("b"), "d" := Standing("d", map[], map[])]
  }

  const REPIN := CidArg("c", ["d"], false)

  lemma RepinRuns() returns (runs: map<PeerId, seq<Action>>)
    ensures AppliedEverywhere(BeforeRepin(), REPIN, runs)
  {
    hide AppliedAt;
    var atA := CanApply(Holding("a"), REPIN, "a");
    var atB := CanApply(Holding("b"), REPIN, "b");
    var atD := CanApply(Standing("d", map[], map[]), REPIN, "d");
    runs := map["a" := atA, "b" := atB, "d" := atD];
  }

  lemma RepinIsCommitted()
    ensures PinArg(LOST_PEER, "c", REPIN) && Holders(LOST_PEER, "c") == {"a"}
    ensures BeforeRepin().Keys == LOST_PEER.peers
  {
    hide Chosen, Holders;
    LostPeerChoice();
  }

  /** An instance: "a", still live, and "b" hold the item before the re-pin; after it only "d" does. */
  lemma RepinLosesACopy() returns (runs: map<PeerId, seq<Action>>)
    ensures PinArg(LOST_PEER, "c", REPIN) && Holders(LOST_PEER, "c") == {"a"}
    ensures BeforeRepin().Keys == LOST_PEER.peers && AppliedEverywhere(BeforeRepin(), REPIN, runs)
    ensures forall p :: p in BeforeRepin() ==> (Holds(BeforeRepin()[p].daemon, "c") <==> p == "a" || p == "b")
    ensures Reporting(BeforeRepin(), REPIN, runs, Pinned) == {"d"}
    ensures forall p :: p in BeforeRepin() ==> (Holds(Final(BeforeRepin(), REPIN, runs, p).daemon, "c") <==> p == "d")
  {
    hide AppliedAt, AppliedEverywhere, PinArg, Holders, BeforeRepin, Final, Reporting;
    RepinIsCommitted();
    runs := RepinRuns();
    ReadBeforeRepin();
    StatusesFollowAllocations(BeforeRepin(), REPIN, runs);
    HeldAfter(BeforeRepin(), REPIN, runs);
  }

  lemma ReadBeforeRepin()
    ensures BeforeRepin().Keys == {"a", "b", "d"}
    ensures forall p :: p in BeforeRepin() ==> (Holds(BeforeRepin()[p].daemon, "c") <==> p == "a" || p == "b")
    ensures forall p :: p in BeforeRepin() ==>
      (StatusOf(BeforeRepin()[p].status, "c") == Pinned <==> p == "a" || p == "b")
  {
  }

  lemma HeldAfter(before: map<PeerId, State>, arg: CidArg, runs: map<PeerId, seq<Action>>)
    requires AppliedEverywhere(before, arg, runs)
    ensures forall p :: p in before && (arg.everywhere || p in arg.allocations) ==>
      Holds(Final(before, arg, runs, p).daemon, arg.cid)
    ensures forall p :: p in before && !arg.everywhere && p !in arg.allocations
                        && StatusOf(before[p].status, arg.cid) == Pinned ==>
      !Holds(Final(before, arg, runs, p).daemon, arg.cid)
  {
    hide AppliedAt, IsRun, Exec;
    forall p | p in before {
      PeerOutcome(before[p], arg, runs[p], p);
    }
  }
}
