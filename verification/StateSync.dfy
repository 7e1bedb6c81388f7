/** Cluster.StateSync (cluster.go) as it is called: which Track and Untrack calls it starts. */
module StateSync {
  import opened Types
  import opened TrackerMap
  import opened TrackerMachine
  import opened SharedState
  import opened PinTracker
  import opened TrackerSpec
  import opened TrackerContract
  import opened Reachability
  import opened Convergence
  import opened Settling

  /** The Track calls for the entries of `args` that are not tracked. */
  function TrackStarts(args: seq<CidArg>, m: StatusMap, self: PeerId): seq<Thread> {
    if args == [] then []
    else
      (if StatusOf(m, args[0].cid) == Unpinned then [TrackStart(self, args[0])] else [])
      + TrackStarts(args[1..], m, self)
  }

  /** The Untrack calls for the CIDs of `cids` that are not in the state. */
  function UntrackStarts(cids: seq<Cid>, pins: set<Cid>): seq<Thread> {
    if cids == [] then []
    else (if cids[0] in pins then [] else [UntrackSet(cids[0])]) + UntrackStarts(cids[1..], pins)
  }

  function CidOfStart(t: Thread): Cid {
    if t.UntrackSet? then t.c else if t.TrackGet? || t.TrackSet? then t.arg.cid else ""
  }

  ghost predicate Starts(started: seq<Thread>, m: StatusMap, self: PeerId, pins: map<Cid, CidArg>) {
    exists order: seq<CidArg>, cids: seq<Cid> :: StartsInOrder(started, m, self, pins, order, cids)
  }

  ghost predicate StartsInOrder(
      started: seq<Thread>, m: StatusMap, self: PeerId, pins: map<Cid, CidArg>, order: seq<CidArg>, cids: seq<Cid>)
  {
    && Lists(order, pins) && Enumerates(cids, m.Keys)
    && started == TrackStarts(order, m, self) + UntrackStarts(cids, pins.Keys)
  }

  method StartTracks(tracker: MapPinTracker, clusterPins: seq<CidArg>, now: Time) returns (started: seq<Thread>)
    ensures started == TrackStarts(clusterPins, tracker.status, tracker.peerID)
  {
    started := [];
    assert clusterPins[0..] == clusterPins;
    for i := 0 to |clusterPins|
      invariant started + TrackStarts(clusterPins[i..], tracker.status, tracker.peerID)
             == TrackStarts(clusterPins, tracker.status, tracker.peerID)
    {
      var p := tracker.Get(clusterPins[i].cid, now);
      assert clusterPins[i..][1..] == clusterPins[i + 1..];
      if p.status == Unpinned {
        started := started + [TrackStart(tracker.peerID, clusterPins[i])];
      }
    }
  }

  method StartUntracks(tracked: seq<PinInfo>, cState: MapState) returns (started: seq<Thread>)
    ensures started == UntrackStarts(CidsOf(tracked), cState.pinMap.Keys)
  {
    hide CidsOf, UntrackStarts;
    started := [];
    assert tracked[0..] == tracked;
    for i := 0 to |tracked|
      invariant started + UntrackStarts(CidsOf(tracked[i..]), cState.pinMap.Keys)
             == UntrackStarts(CidsOf(tracked), cState.pinMap.Keys)
    {
      UntrackStartsRest(tracked[i..], cState.pinMap.Keys);
      assert tracked[i..][1..] == tracked[i + 1..];
      if !cState.Has(tracked[i].cid) {
        started := started + [UntrackSet(tracked[i].cid)];
      }
    }
    UntrackStartsNone(tracked[|tracked|..], cState.pinMap.Keys);
  }

  lemma UntrackStartsRest(infos: seq<PinInfo>, pins: set<Cid>)
    requires infos != []
    ensures UntrackStarts(CidsOf(infos), pins)
         == (if infos[0].cid in pins then [] else [UntrackSet(infos[0].cid)]) + UntrackStarts(CidsOf(infos[1..]), pins)
  {
    CidsOfRest(infos);
  }

  lemma UntrackStartsNone(infos: seq<PinInfo>, pins: set<Cid>)
    requires infos == []
    ensures UntrackStarts(CidsOf(infos), pins) == []
  {
  }

  function CidsOf(infos: seq<PinInfo>): (cids: seq<Cid>)
    ensures |cids| == |infos|
  {
    seq(|infos|, i requires 0 <= i < |infos| => infos[i].cid)
  }

  lemma CidsOfRest(infos: seq<PinInfo>)
    requires infos != []
    ensures CidsOf(infos)[0] == infos[0].cid && CidsOf(infos)[1..] == CidsOf(infos[1..])
  {
  }

  lemma ReportEnumerates(infos: seq<PinInfo>, m: StatusMap, self: PeerId)
    requires ReportOf(infos, m.Keys, m, self, 0.0)
    ensures Enumerates(CidsOf(infos), m.Keys)
  {
    var cids := CidsOf(infos);
    forall c | c in m
      ensures c in cids
    {
      var i :| 0 <= i < |infos| && infos[i].cid == c;
      assert cids[i] == c;
    }
  }

  lemma LookupReads(m: StatusMap, self: PeerId, now: Time)
    ensures forall c :: Reads(m, self, c, now, Lookup(m, self, c, now))
  {
  }

  lemma {:induction false} OnlyTracks(args: seq<CidArg>, m: StatusMap, self: PeerId)
    ensures forall t :: t in TrackStarts(args, m, self) ==> t.TrackGet? || t.TrackSet?
  {
    if args != [] {
      OnlyTracks(args[1..], m, self);
    }
  }

  lemma {:induction false} OnlyUntracks(cids: seq<Cid>, pins: set<Cid>)
    ensures forall t :: t in UntrackStarts(cids, pins) ==> t.UntrackSet?
  {
    if cids != [] {
      OnlyUntracks(cids[1..], pins);
    }
  }

  /** `cState` is null when the consensus state cannot be obtained. The goroutines started have not
      run when the method returns; the state machine says what they do afterwards. */
  method StateSync(tracker: MapPinTracker, cState: MapState?, now: Time)
    returns (ok: bool, started: seq<Thread>, infos: seq<PinInfo>)
    requires tracker.Keyed() && (cState != null ==> cState.Valid())
    ensures ok == (cState != null)
    ensures !ok ==> started == [] && infos == []
    ensures ok ==> Starts(started, tracker.status, tracker.peerID, cState.pinMap)
    ensures |infos| == |started|
    ensures forall i :: 0 <= i < |infos| ==>
      infos[i] == Lookup(tracker.status, tracker.peerID, CidOfStart(started[i]), now)
    ensures forall i :: 0 <= i < |started| ==> started[i].TrackGet? || started[i].TrackSet? || started[i].UntrackSet?
    ensures forall i :: 0 <= i < |infos| && started[i].UntrackSet? ==>
      Reads(tracker.status, tracker.peerID, started[i].c, now, infos[i])
    ensures forall i :: 0 <= i < |infos| && (started[i].TrackGet? || started[i].TrackSet?) ==>
      Reads(tracker.status, tracker.peerID, started[i].arg.cid, now, infos[i])
  {
    hide TrackStarts, UntrackStarts, CidsOf, ReportOf, EntriesNow, Enumerates, Lookup, Reads;
    LookupReads(tracker.status, tracker.peerID, now);
    ok, started, infos := cState != null, [], [];
    if cState == null {
      return;
    }
    var clusterPins := cState.List();
    started := StartTracks(tracker, clusterPins, now);
    var tracked := tracker.StatusAll();
    var untracks := StartUntracks(tracked, cState);
    started := started + untracks;
    ReportEnumerates(tracked, tracker.status, tracker.peerID);
    OnlyTracks(clusterPins, tracker.status, tracker.peerID);
    OnlyUntracks(CidsOf(tracked), cState.pinMap.Keys);
    assert forall i :: 0 <= i < |started| ==> started[i] in started;
    assert StartsInOrder(started, tracker.status, tracker.peerID, cState.pinMap, clusterPins, CidsOf(tracked));
    for i := 0 to |started|
      invariant |infos| == i
      invariant forall j :: 0 <= j < i ==>
        infos[j] == Lookup(tracker.status, tracker.peerID, CidOfStart(started[j]), now)
    {
      var p := tracker.Get(CidOfStart(started[i]), now);
      infos := infos + [p];
    }
  }

  // ---- exactly the calls that are needed ------------------------------------------------------

  predicate WantedTrack(t: Thread, m: StatusMap, self: PeerId, pins: map<Cid, CidArg>) {
    && (t.TrackGet? || t.TrackSet?)
    && t.arg.cid in pins && pins[t.arg.cid] == t.arg
    && StatusOf(m, t.arg.cid) == Unpinned && t == TrackStart(self, t.arg)
  }

  predicate WantedUntrack(t: Thread, m: StatusMap, pins: map<Cid, CidArg>) {
    t.UntrackSet? && t.c in m && t.c !in pins
  }

  lemma StartArg(self: PeerId, arg: CidArg)
    ensures var t := TrackStart(self, arg); (t.TrackGet? || t.TrackSet?) && t.arg == arg
  {
  }

  lemma {:induction false} CountTracks(args: seq<CidArg>, m: StatusMap, self: PeerId, t: Thread)
    requires DistinctCids(args)
    ensures multiset(TrackStarts(args, m, self))[t]
         == if (t.TrackGet? || t.TrackSet?) && t.arg in args && StatusOf(m, t.arg.cid) == Unpinned
               && t == TrackStart(self, t.arg) then 1 else 0
  {
    hide TrackStart, StatusOf;
    if args != [] {
      CountTracks(args[1..], m, self, t);
      StartArg(self, args[0]);
      assert args == [args[0]] + args[1..];
      var first := if StatusOf(m, args[0].cid) == Unpinned then [TrackStart(self, args[0])] else [];
      assert multiset(TrackStarts(args, m, self)) == multiset(first) + multiset(TrackStarts(args[1..], m, self));
      assert args[0] !in args[1..];
    }
  }

  lemma {:induction false} CountUntracks(cids: seq<Cid>, pins: set<Cid>, t: Thread)
    requires Distinct(cids)
    ensures multiset(UntrackStarts(cids, pins))[t] == if t.UntrackSet? && t.c in cids && t.c !in pins then 1 else 0
  {
    if cids != [] {
      CountUntracks(cids[1..], pins, t);
      assert cids == [cids[0]] + cids[1..];
    }
  }

  /** Once each: a Track for every untracked entry of the state, an Untrack for every tracked CID
      outside it, and nothing else, whatever the map iteration orders. */
  lemma StartedExactly(started: seq<Thread>, m: StatusMap, self: PeerId, pins: map<Cid, CidArg>, t: Thread)
    requires Starts(started, m, self, pins)
    ensures multiset(started)[t] == if WantedTrack(t, m, self, pins) || WantedUntrack(t, m, pins) then 1 else 0
  {
    var order, cids :| StartsInOrder(started, m, self, pins, order, cids);
    CountTracks(order, m, self, t);
    CountUntracks(cids, pins.Keys, t);
  }

  // ---- the sequential form is a run of the machine -----------------------------------------------

  /** One step of StateSync: only the goroutines change. */
  lemma SyncStepThenReaches(s: State, base: multiset<Thread>, t: Thread, env: Env, k: Continuation, s': State)
    requires t.StateSyncTrack? || t.StateSyncList? || t.StateSyncUntrack?
    requires s.threads == base + multiset{t} && k == Next(s, t, env)
    requires t.StateSyncList? ==> Enumerates(env.order, s.status.Keys)
    requires Reaches(s.(threads := base + k.Threads()), s')
    ensures Reaches(s, s')
  {
    assert s.threads - multiset{t} == base;
    assert Step(s, Run(t, env)) == s.(threads := base + k.Threads());
    StepThenReaches(s, Run(t, env), s');
  }

  const CALM := Env(Done, None, [], 0.0)

  lemma UntrackContinues(s: State, cids: seq<Cid>, pins: set<Cid>)
    requires cids != []
    ensures Next(s, StateSyncUntrack(cids, pins), CALM)
         == if cids[0] in pins then Becomes(StateSyncUntrack(cids[1..], pins))
            else Forks(StateSyncUntrack(cids[1..], pins), UntrackSet(cids[0]))
  {
    hide StatusOf, Lookup, SyncDecision;
  }

  lemma UntrackNext(s: State, cids: seq<Cid>, pins: set<Cid>)
    ensures Next(s, StateSyncUntrack(cids, pins), CALM).Threads()
         == if cids == [] then multiset{}
            else multiset(UntrackStarts(cids[..1], pins)) + multiset{StateSyncUntrack(cids[1..], pins)}
  {
    if cids != [] {
      hide Next;
      UntrackContinues(s, cids, pins);
      assert UntrackStarts([], pins) == [] && cids[..1][1..] == [];
    }
  }

  lemma UntrackStartsSplit(cids: seq<Cid>, pins: set<Cid>)
    requires cids != []
    ensures UntrackStarts(cids, pins) == UntrackStarts(cids[..1], pins) + UntrackStarts(cids[1..], pins)
  {
    assert cids[..1][1..] == [] && UntrackStarts([], pins) == [];
  }

  lemma {:induction false} UntrackPhase(
      s: State, base: multiset<Thread>, cids: seq<Cid>, pins: set<Cid>, end: multiset<Thread>)
    requires s.threads == base + multiset{StateSyncUntrack(cids, pins)}
    requires end == base + multiset(UntrackStarts(cids, pins))
    ensures Reaches(s, s.(threads := end))
    decreases |cids|
  {
    hide Exec, IsRun, Reaches, Next, Continuation.Threads;
    var t := StateSyncUntrack(cids, pins);
    var k := Next(s, t, CALM);
    var next := s.(threads := base + k.Threads());
    UntrackNext(s, cids, pins);
    if cids == [] {
      assert next.threads == end;
      ReachesSelf(next);
    } else {
      UntrackStartsSplit(cids, pins);
      UntrackPhase(next, base + multiset(UntrackStarts(cids[..1], pins)), cids[1..], pins, end);
    }
    SyncStepThenReaches(s, base, t, CALM, k, s.(threads := end));
  }

  lemma TrackContinues(s: State, args: seq<CidArg>, pins: set<Cid>)
    requires args != []
    ensures Next(s, StateSyncTrack(args, pins), CALM)
         == if StatusOf(s.status, args[0].cid) == Unpinned
            then Forks(StateSyncTrack(args[1..], pins), TrackStart(s.self, args[0]))
            else Becomes(StateSyncTrack(args[1..], pins))
  {
    hide TrackStart, StatusOf, Lookup, SyncDecision;
  }

  lemma TrackStartsOne(arg: CidArg, m: StatusMap, self: PeerId)
    ensures TrackStarts([arg], m, self) == if StatusOf(m, arg.cid) == Unpinned then [TrackStart(self, arg)] else []
    ensures TrackStarts([], m, self) == []
  {
    hide TrackStart, StatusOf;
    assert [arg][1..] == [];
  }

  lemma TrackNext(s: State, args: seq<CidArg>, pins: set<Cid>)
    ensures Next(s, StateSyncTrack(args, pins), CALM).Threads()
         == if args == [] then multiset{StateSyncList(pins)}
            else multiset(TrackStarts(args[..1], s.status, s.self)) + multiset{StateSyncTrack(args[1..], pins)}
    ensures TrackStarts([], s.status, s.self) == []
  {
    hide TrackStart, StatusOf, TrackStarts;
    if args == [] {
      TrackStartsOne(NO_CID_ARG, s.status, s.self);
    } else {
      hide Next;
      TrackContinues(s, args, pins);
      TrackStartsOne(args[0], s.status, s.self);
      assert args[..1] == [args[0]];
    }
  }

  lemma TrackStartsSplit(args: seq<CidArg>, m: StatusMap, self: PeerId)
    requires args != []
    ensures TrackStarts(args, m, self) == TrackStarts(args[..1], m, self) + TrackStarts(args[1..], m, self)
  {
    assert args[..1][1..] == [] && TrackStarts([], m, self) == [];
  }

  /** The listing of the tracker, and the Untrack calls after it. */
  lemma ListPhase(s: State, base: multiset<Thread>, pins: set<Cid>, cids: seq<Cid>, end: multiset<Thread>)
    requires s.threads == base + multiset{StateSyncList(pins)} && Enumerates(cids, s.status.Keys)
    requires end == base + multiset(UntrackStarts(cids, pins))
    ensures Reaches(s, s.(threads := end))
  {
    hide Exec, IsRun, Reaches;
    var k := Becomes(StateSyncUntrack(cids, pins));
    var next := s.(threads := base + k.Threads());
    UntrackPhase(next, base, cids, pins, end);
    SyncStepThenReaches(s, base, StateSyncList(pins), CALM.(order := cids), k, s.(threads := end));
  }

  lemma {:induction false} TrackPhase(
      s: State, base: multiset<Thread>, args: seq<CidArg>, pins: set<Cid>, cids: seq<Cid>, end: multiset<Thread>)
    requires s.threads == base + multiset{StateSyncTrack(args, pins)} && Enumerates(cids, s.status.Keys)
    requires end == base + multiset(TrackStarts(args, s.status, s.self)) + multiset(UntrackStarts(cids, pins))
    ensures Reaches(s, s.(threads := end))
    decreases |args|
  {
    hide Exec, IsRun, Reaches, Next, Continuation.Threads, UntrackStarts, TrackStarts;
    var t := StateSyncTrack(args, pins);
    var k := Next(s, t, CALM);
    var next := s.(threads := base + k.Threads());
    TrackNext(s, args, pins);
    if args == [] {
      ListPhase(next, base, pins, cids, end);
    } else {
      TrackStartsSplit(args, s.status, s.self);
      TrackPhase(next, base + multiset(TrackStarts(args[..1], s.status, s.self)), args[1..], pins, cids, end);
    }
    SyncStepThenReaches(s, base, t, CALM, k, s.(threads := end));
  }

  ghost predicate SyncReaches(s: State, order: seq<CidArg>, pins: set<Cid>, started: seq<Thread>) {
    Reaches(Add(s, StateSyncTrack(order, pins)), s.(threads := s.threads + multiset(started)))
  }

  /** StateSync, run alone, takes the machine to the state in which exactly the calls it started are
      about to run: the theorems about StateSync's convergence start from there. */
  lemma StateSyncIsRun(s: State, started: seq<Thread>, pins: map<Cid, CidArg>)
    requires Starts(started, s.status, s.self, pins)
    ensures exists order :: Lists(order, pins) && SyncReaches(s, order, pins.Keys, started)
  {
    hide Reaches, Lists, TrackStarts, UntrackStarts, Enumerates;
    var order, cids :| StartsInOrder(started, s.status, s.self, pins, order, cids);
    var end := s.threads + multiset(started);
    assert end == s.threads + multiset(TrackStarts(order, s.status, s.self)) + multiset(UntrackStarts(cids, pins.Keys));
    TrackPhase(Add(s, StateSyncTrack(order, pins.Keys)), s.threads, order, pins.Keys, cids, end);
    assert SyncReaches(s, order, pins.Keys, started);
  }
}
