/** An Untrack that overtakes a Track: exactly when it can leave tracker and daemon in disagreement. */
module Race {
  import opened Types
  import opened TrackerMap
  import opened TrackerMachine
  import opened Reachability
  import opened Weights
  import opened PendingWork
  import opened Settling

  // ---- bringing a Track to the point where the pin result is on its way --------------------------

  /** Where a Track of `arg` at `stage` has come to, without failures so far. */
  ghost predicate OnTrack(s: State, arg: CidArg, was: bool, stage: Stage) {
    && Inv(s) && At(s, Track(arg, was), stage)
    && !IsRemote(s.self, arg) && !s.trouble && s.capacity > 0
  }

  const NOW := Env(Done, None, [], 0.0)

  /** Goroutines other than those that enqueue do not fail by themselves. */
  predicate Safe(t: Thread) {
    !t.TrackEnqueue? && !t.UntrackEnqueue? && !t.SyncCall? && !t.SyncAllCall? && !t.StateSyncList? && !t.SyncAllList?
  }

  lemma SafeFire(s: State, t: Thread)
    requires t in s.threads && Safe(t)
    ensures var s' := Fire(s, t, NOW);
      && s'.trouble == s.trouble && s'.self == s.self && s'.capacity == s.capacity
      && s'.pinCh == s.pinCh && s'.unpinCh == s.unpinCh
      && s'.pinBusy == (s.pinBusy && !(t.PinReturn? && t.after == FreeWorker))
      && s'.unpinBusy == (s.unpinBusy && !(t.UnpinReturn? && t.after == FreeWorker))
  {
    hide ApplyUpdate, UpdateOf, DaemonAfter, Next;
  }

  /** A step of some other goroutine. */
  lemma AsideStep(s: State, arg: CidArg, was: bool, stage: Stage, t: Thread)
    requires OnTrack(s, arg, was, stage) && t in s.threads && Quiet(t, arg.cid) && Safe(t)
    requires stage.Running? ==> t != stage.t
    ensures OnTrack(Fire(s, t, NOW), arg, was, stage)
  {
    hide Inv, At, Quiet, Fire, IsRemote;
    SafeFire(s, t);
    QuietRun(s, Track(arg, was), stage, t, NOW);
    StepKeepsInv(s, Run(t, NOW));
    assert IsRemote(Fire(s, t, NOW).self, arg) == IsRemote(s.self, arg);
  }

  /** `t` is the operation in flight of one of the workers. */
  predicate InWorker(t: Thread) {
    (t.PinSet? || t.PinCall? || t.PinReturn? || t.UnpinCall? || t.UnpinReturn?) && t.after == FreeWorker
  }

  function WorkLeft(t: Thread): nat {
    match t
    case PinSet(_, _) => 3
    case PinCall(_, _) | UnpinCall(_, _) => 2
    case PinReturn(_, _, _) | UnpinReturn(_, _, _) => 1
    case _ => 0
  }

  lemma WorkerNext(s: State, t: Thread)
    requires InWorker(t)
    ensures Safe(t)
    ensures var k := Next(s, t, NOW);
      if WorkLeft(t) == 1 then k.Ends?
      else k.Becomes? && InWorker(k.t) && WorkLeft(k.t) < WorkLeft(t) && PinWorker(k.t) == PinWorker(t)
    ensures (t.PinReturn? || t.UnpinReturn?) == (WorkLeft(t) == 1)
    ensures t.PinReturn? ==> PinWorker(t) == 1 && t.after == FreeWorker
    ensures t.UnpinReturn? ==> PinWorker(t) == 0 && t.after == FreeWorker
    ensures WorkLeft(t) == 1 ==> (t.PinReturn? <==> PinWorker(t) == 1)
  {
  }

  /** The operation of a worker on another CID runs to its end. */
  lemma {:induction false} FinishWork(s: State, arg: CidArg, was: bool, stage: Stage, t: Thread) returns (s': State)
    requires OnTrack(s, arg, was, stage) && t in s.threads && Quiet(t, arg.cid) && InWorker(t)
    requires stage.Running? ==> t != stage.t
    ensures Reaches(s, s') && OnTrack(s', arg, was, stage)
    ensures s'.pinCh == s.pinCh && s'.unpinCh == s.unpinCh
    ensures s'.pinBusy == (s.pinBusy && PinWorker(t) != 1) && s'.unpinBusy == (s.unpinBusy && PinWorker(t) == 1)
    decreases WorkLeft(t)
  {
    hide OnTrack, Next, Reaches, Quiet, PinWorker, InWorker, WorkLeft;
    var next, k := Fire(s, t, NOW), Next(s, t, NOW);
    AsideStep(s, arg, was, stage, t) by { WorkerNext(s, t); }
    WorkerNext(s, t);
    SafeFire(s, t);
    if k.Ends? {
      s' := next;
      ReachesSelf(s');
    } else {
      FinishNext(s, arg, was, stage, t);
      s' := FinishWork(next, arg, was, stage, k.t);
    }
    StepThenReaches(s, Run(t, NOW), s');
  }

  lemma FinishNext(s: State, arg: CidArg, was: bool, stage: Stage, t: Thread)
    requires OnTrack(s, arg, was, stage) && t in s.threads && Quiet(t, arg.cid) && InWorker(t)
    requires stage.Running? ==> t != stage.t
    requires Next(s, t, NOW).Becomes?
    ensures var u := Next(s, t, NOW).t;
      u in Fire(s, t, NOW).threads && Quiet(u, arg.cid) && (stage.Running? ==> u != stage.t)
  {
    hide Inv, At, IsRemote;
    QuietNext(s, t, NOW, arg.cid);
    assert Next(s, t, NOW).t in Next(s, t, NOW).Threads();
    if stage.Running? {
      TaskAtStage(s, arg, was, stage);
    }
  }

  lemma TaskAtStage(s: State, arg: CidArg, was: bool, stage: Stage)
    requires At(s, Track(arg, was), stage) && stage.Running?
    ensures !Quiet(stage.t, arg.cid)
  {
    TaskIsNotQuiet(s, Track(arg, was), stage.t);
  }

  lemma {:induction false} SomeWeight(ts: multiset<Thread>, f: Thread -> nat) returns (t: Thread)
    requires Weight(ts, f) > 0
    ensures t in ts && f(t) > 0
    decreases |ts|
  {
    t :| t in ts;
    if f(t) == 0 {
      WeightRemove(ts, t, f);
      t := SomeWeight(ts - multiset{t}, f);
    }
  }

  /** The pin worker is not serving `arg`. */
  predicate PinElsewhere(stage: Stage) {
    stage.Running? ==> PinWorker(stage.t) == 0
  }

  lemma OthersQuiet(s: State, arg: CidArg, was: bool, stage: Stage, t: Thread)
    requires At(s, Track(arg, was), stage) && t in s.threads && (stage.Running? ==> t != stage.t)
    ensures Quiet(t, arg.cid)
  {
    if stage.Running? {
      assert t in s.threads - multiset{stage.t};
    }
  }

  lemma FreePin(s: State, arg: CidArg, was: bool, stage: Stage) returns (s': State)
    requires OnTrack(s, arg, was, stage) && PinElsewhere(stage)
    ensures Reaches(s, s') && OnTrack(s', arg, was, stage) && !s'.pinBusy && s'.pinCh == s.pinCh
  {
    hide Reaches, At, Quiet;
    s' := s;
    if s.pinBusy {
      var t := SomeWeight(s.threads, PinWorker);
      OthersQuiet(s, arg, was, stage, t);
      s' := FinishWork(s, arg, was, stage, t);
    } else {
      ReachesSelf(s);
    }
  }

  lemma FreeUnpin(s: State, arg: CidArg, was: bool, stage: Stage) returns (s': State)
    requires OnTrack(s, arg, was, stage) && (stage.Running? ==> UnpinWorker(stage.t) == 0)
    ensures Reaches(s, s') && OnTrack(s', arg, was, stage) && !s'.unpinBusy && s'.unpinCh == s.unpinCh
  {
    hide Reaches, At, Quiet;
    s' := s;
    if s.unpinBusy {
      var t := SomeWeight(s.threads, UnpinWorker);
      OthersQuiet(s, arg, was, stage, t);
      s' := FinishWork(s, arg, was, stage, t);
    } else {
      ReachesSelf(s);
    }
  }

  /** A worker receives an item about another CID. */
  lemma TakeAside(s: State, arg: CidArg, was: bool, stage: Stage, a: Action) returns (stage': Stage)
    requires OnTrack(s, arg, was, stage) && Enabled(s, a) && (a.TakePin? || a.TakeUnpin?)
    requires a.TakePin? && stage.InPinCh? ==> stage.i > 0
    ensures OnTrack(Step(s, a), arg, was, stage')
    ensures stage' == if a.TakePin? && stage.InPinCh? then InPinCh(stage.i - 1) else stage
    ensures a.TakePin? ==> Step(s, a).pinCh == s.pinCh[1..] && Step(s, a).unpinCh == s.unpinCh
    ensures a.TakeUnpin? ==> Step(s, a).unpinCh == s.unpinCh[1..] && Step(s, a).pinCh == s.pinCh
  {
    hide Inv, IsRemote, PinQueued, UnpinQueued, TaskAt, SettledAt;
    StepKeepsInv(s, a);
    var g, s' := Track(arg, was), Step(s, a);
    stage' := stage;
    if a.TakePin? {
      stage' := PinWorkerTakes(s, g, stage);
    } else {
      TaskIsNotInUnpinCh(s, arg, was, stage);
      stage' := UnpinWorkerTakes(s, g, stage);
    }
  }

  lemma TaskIsNotInUnpinCh(s: State, arg: CidArg, was: bool, stage: Stage)
    requires At(s, Track(arg, was), stage)
    ensures !stage.InUnpinCh?
  {
  }

  /** A step of the Track itself. */
  lemma OwnTrackStep(s: State, arg: CidArg, was: bool, t: Thread)
    requires OnTrack(s, arg, was, Running(t)) && (t.TrackEnqueue? ==> |s.pinCh| < s.capacity)
    ensures OnTrack(Fire(s, t, NOW), arg, was, StageAfter(s, arg.cid, t, NOW))
  {
    hide Inv, StageAfter, Next, ApplyUpdate, UpdateOf, DaemonAfter;
    var g := Track(arg, was);
    OwnRun(s, g, t, NOW) by { hide At; }
    StepKeepsInv(s, Run(t, NOW));
  }

  function InFlight(arg: CidArg): Thread {
    PinReturn(arg, true, FreeWorker)
  }

  /** From `s`, and without failures, the pin of `arg` gets in flight in `s'`. */
  ghost predicate GetsInFlight(s: State, s': State, arg: CidArg, was: bool) {
    Reaches(s, s') && OnTrack(s', arg, was, Running(InFlight(arg)))
  }

  lemma StepOn(s: State, t: Thread, s': State, arg: CidArg, was: bool)
    requires t in s.threads && !t.StateSyncList? && !t.SyncAllList? && GetsInFlight(Fire(s, t, NOW), s', arg, was)
    ensures GetsInFlight(s, s', arg, was)
  {
    hide Reaches, OnTrack, Fire;
    StepThenReaches(s, Run(t, NOW), s');
  }

  lemma ReachOn(s: State, s1: State, s': State, arg: CidArg, was: bool)
    requires Reaches(s, s1) && GetsInFlight(s1, s', arg, was)
    ensures GetsInFlight(s, s', arg, was)
  {
    hide Reaches, OnTrack;
    ReachesOn(s, s1, s');
  }

  lemma NextOfTrack(s: State, arg: CidArg)
    requires !IsRemote(s.self, arg)
    ensures StageAfter(s, arg.cid, TrackSet(arg), NOW) == Running(TrackEnqueue(arg))
    ensures |s.pinCh| < s.capacity ==> StageAfter(s, arg.cid, TrackEnqueue(arg), NOW) == InPinCh(|s.pinCh|)
    ensures StageAfter(s, arg.cid, PinSet(arg, FreeWorker), NOW) == Running(PinCall(arg, FreeWorker))
    ensures StageAfter(s, arg.cid, PinCall(arg, FreeWorker), NOW) == Running(InFlight(arg))
  {
  }

  lemma FromPinSet(s: State, arg: CidArg, was: bool, t: Thread) returns (s': State)
    requires OnTrack(s, arg, was, Running(t)) && (t == PinSet(arg, FreeWorker) || t == PinCall(arg, FreeWorker))
    ensures GetsInFlight(s, s', arg, was)
    decreases WorkLeft(t)
  {
    hide Inv, Reaches, TaskAt, StageAfter, GetsInFlight, Fire;
    NextOfTrack(s, arg);
    OwnTrackStep(s, arg, was, t);
    var next := Fire(s, t, NOW);
    if t.PinSet? {
      s' := FromPinSet(next, arg, was, PinCall(arg, FreeWorker));
    } else {
      s' := next;
      ArrivedInFlight(s', arg, was);
    }
    StepOn(s, t, s', arg, was);
  }

  lemma ArrivedInFlight(s: State, arg: CidArg, was: bool)
    requires OnTrack(s, arg, was, Running(InFlight(arg)))
    ensures GetsInFlight(s, s, arg, was)
  {
    ReachesSelf(s);
  }

  /** The worker serves what is queued before `arg`, and then `arg`. */
  lemma {:induction false} FromQueue(s: State, arg: CidArg, was: bool, i: nat) returns (s': State)
    requires OnTrack(s, arg, was, InPinCh(i))
    ensures GetsInFlight(s, s', arg, was)
    decreases i
  {
    hide OnTrack, Reaches, GetsInFlight, Step;
    var free := FreePin(s, arg, was, InPinCh(i));
    QueueStage(free, arg, was, i);
    var next := Step(free, TakePin);
    if i == 0 {
      HeadOnTrack(free, arg, was);
      s' := FromPinSet(next, arg, was, PinSet(arg, FreeWorker));
    } else {
      var stage := TakeAside(free, arg, was, InPinCh(i), TakePin);
      s' := FromQueue(next, arg, was, i - 1);
    }
    TakeOn(free, s', arg, was);
    ReachOn(s, free, s', arg, was);
  }

  lemma TakeOn(s: State, s': State, arg: CidArg, was: bool)
    requires Enabled(s, TakePin) && GetsInFlight(Step(s, TakePin), s', arg, was)
    ensures GetsInFlight(s, s', arg, was)
  {
    hide Reaches, OnTrack, Step;
    StepThenReaches(s, TakePin, s');
  }

  lemma QueueStage(s: State, arg: CidArg, was: bool, i: nat)
    requires OnTrack(s, arg, was, InPinCh(i)) && !s.pinBusy
    ensures Enabled(s, TakePin)
  {
    hide Inv;
  }

  lemma HeadOnTrack(s: State, arg: CidArg, was: bool)
    requires OnTrack(s, arg, was, InPinCh(0)) && Enabled(s, TakePin)
    ensures OnTrack(Step(s, TakePin), arg, was, Running(PinSet(arg, FreeWorker)))
  {
    hide Inv, TaskAt, IsRemote, UnpinQueued, SettledAt;
    var stage := PinWorkerTakes(s, Track(arg, was), InPinCh(0)) by { hide At; }
    StepKeepsInv(s, TakePin);
  }

  /** The worker makes room in the queue. */
  lemma {:induction false} FromEnqueue(s: State, arg: CidArg, was: bool) returns (s': State)
    requires OnTrack(s, arg, was, Running(TrackEnqueue(arg)))
    ensures GetsInFlight(s, s', arg, was)
    decreases |s.pinCh|
  {
    hide OnTrack, Reaches, GetsInFlight, Step, Fire, StageAfter;
    var stage := Running(TrackEnqueue(arg));
    TrackFacts(s, arg, was, stage);
    if |s.pinCh| < s.capacity {
      NextOfTrack(s, arg);
      OwnTrackStep(s, arg, was, TrackEnqueue(arg));
      s' := FromQueue(Fire(s, TrackEnqueue(arg), NOW), arg, was, |s.pinCh|);
      StepOn(s, TrackEnqueue(arg), s', arg, was);
    } else {
      var free := FreePin(s, arg, was, stage);
      var stage' := TakeAside(free, arg, was, stage, TakePin);
      s' := FromEnqueue(Step(free, TakePin), arg, was);
      TakeOn(free, s', arg, was);
      ReachOn(s, free, s', arg, was);
    }
  }

  lemma TrackFacts(s: State, arg: CidArg, was: bool, stage: Stage)
    requires OnTrack(s, arg, was, stage)
    ensures !IsRemote(s.self, arg) && s.capacity > 0 && !s.trouble
    ensures stage.Running? ==> stage.t in s.threads
  {
    hide Inv, TaskAt, IsRemote;
  }

  lemma FromSet(s: State, arg: CidArg, was: bool) returns (s': State)
    requires OnTrack(s, arg, was, Running(TrackSet(arg)))
    ensures GetsInFlight(s, s', arg, was)
  {
    hide OnTrack, Reaches, GetsInFlight, Fire, StageAfter;
    TrackFacts(s, arg, was, Running(TrackSet(arg)));
    NextOfTrack(s, arg);
    OwnTrackStep(s, arg, was, TrackSet(arg));
    s' := FromEnqueue(Fire(s, TrackSet(arg), NOW), arg, was);
    StepOn(s, TrackSet(arg), s', arg, was);
  }

  /** StateSync goes through its list until it starts the Track of `arg`. */
  lemma {:induction false} FromStateSync(s: State, arg: CidArg, was: bool, args: seq<CidArg>, pins: set<Cid>)
      returns (s': State)
    requires OnTrack(s, arg, was, Running(StateSyncTrack(args, pins)))
    ensures GetsInFlight(s, s', arg, was)
    decreases |args|
  {
    hide OnTrack, Reaches, GetsInFlight, Fire, StageAfter;
    var t := StateSyncTrack(args, pins);
    TrackFacts(s, arg, was, Running(t));
    NextOfStateSync(s, arg, was, args, pins);
    OwnTrackStep(s, arg, was, t);
    if args[0] == arg {
      s' := FromSet(Fire(s, t, NOW), arg, was);
    } else {
      s' := FromStateSync(Fire(s, t, NOW), arg, was, args[1..], pins);
    }
    StepOn(s, t, s', arg, was);
  }

  lemma NextOfStateSync(s: State, arg: CidArg, was: bool, args: seq<CidArg>, pins: set<Cid>)
    requires OnTrack(s, arg, was, Running(StateSyncTrack(args, pins)))
    ensures args != []
    ensures StageAfter(s, arg.cid, StateSyncTrack(args, pins), NOW)
         == if args[0] == arg then Running(TrackSet(arg)) else Running(StateSyncTrack(args[1..], pins))
  {
    hide Inv;
    var rest := args[1..];
    assert forall i :: 0 <= i < |rest| ==> rest[i] == args[i + 1];
    if args[0] != arg {
      assert arg in rest;
      var i :| 0 <= i < |args| && args[i] == arg;
      assert args[0].cid != arg.cid;
    }
  }

  /** From every stage of a Track that has not settled the pin can get in flight. */
  lemma FromAnywhere(s: State, arg: CidArg, was: bool, stage: Stage) returns (s': State)
    requires OnTrack(s, arg, was, stage) && !stage.Settled?
    ensures GetsInFlight(s, s', arg, was)
  {
    hide Inv, Reaches, GetsInFlight;
    match stage
    case InPinCh(i) => s' := FromQueue(s, arg, was, i);
    case Running(t) =>
      match t
      case StateSyncTrack(args, pins) => s' := FromStateSync(s, arg, was, args, pins);
      case TrackSet(_) => s' := FromSet(s, arg, was);
      case TrackEnqueue(_) => s' := FromEnqueue(s, arg, was);
      case PinSet(_, _) => s' := FromPinSet(s, arg, was, t);
      case PinCall(_, _) => s' := FromPinSet(s, arg, was, t);
      case PinReturn(_, _, _) =>
        s' := s;
        ArrivedInFlight(s, arg, was);
  }

  /** Then the unpin worker can empty its queue. */
  lemma {:induction false} EmptyUnpins(s: State, arg: CidArg, was: bool) returns (s': State)
    requires OnTrack(s, arg, was, Running(InFlight(arg)))
    ensures GetsInFlight(s, s', arg, was) && s'.unpinCh == [] && !s'.unpinBusy
    decreases |s.unpinCh|
  {
    hide OnTrack, Reaches, GetsInFlight, Step;
    var stage := Running(InFlight(arg));
    var free := FreeUnpin(s, arg, was, stage);
    if free.unpinCh == [] {
      s' := free;
      ArrivedInFlight(s', arg, was);
    } else {
      var stage' := TakeAside(free, arg, was, stage, TakeUnpin);
      s' := EmptyUnpins(Step(free, TakeUnpin), arg, was);
      TakeUnpinOn(free, s', arg, was);
    }
    ReachOn(s, free, s', arg, was);
  }

  lemma TakeUnpinOn(s: State, s': State, arg: CidArg, was: bool)
    requires Enabled(s, TakeUnpin) && GetsInFlight(Step(s, TakeUnpin), s', arg, was)
    ensures GetsInFlight(s, s', arg, was)
  {
    hide Reaches, OnTrack, Step;
    StepThenReaches(s, TakeUnpin, s');
  }

  // ---- the Untrack overtakes ----------------------------------------------------------------------

  function Entry(s: State, c: Cid, st: TrackerStatus): StatusMap {
    s.status[c := PinInfo(c, s.self, st, 0.0, "")]
  }

  /** One step of `t` next to `rest`, spelled out. */
  lemma Spelled(s: State, t: Thread, rest: multiset<Thread>, k: Continuation, s': State, end: State)
    requires s.threads == rest + multiset{t} && Safe(t) && k == Next(s, t, NOW)
    requires s' == s.(threads := rest + k.Threads(),
                      status := ApplyUpdate(s.status, s.self, UpdateOf(t, NOW), 0.0),
                      daemon := DaemonAfter(s.daemon, t, Done),
                      pinBusy := s.pinBusy && !(t.PinReturn? && t.after == FreeWorker),
                      unpinBusy := s.unpinBusy && !(t.UnpinReturn? && t.after == FreeWorker))
    requires Reaches(s', end)
    ensures Reaches(s, end)
  {
    hide Next, ApplyUpdate, UpdateOf, DaemonAfter, Reaches;
    assert s.threads - multiset{t} == rest;
    SafeFire(s, t);
    StepThenReaches(s, Run(t, NOW), end);
  }

  /** What the overtaking leaves: the daemon without `c`, the tracker Pinned. */
  function Overtaken(s: State, rest: multiset<Thread>, c: Cid): State {
    s.(status := Entry(s, c, Pinned), daemon := IpfsUnpin(s.daemon, c, Done), pinBusy := false, unpinBusy := false,
       threads := rest)
  }

  /** The last step: the pin result is recorded although the daemon has unpinned meanwhile. */
  lemma LateResult(s: State, rest: multiset<Thread>, arg: CidArg)
    requires s.threads == rest + multiset{InFlight(arg)}
    ensures Reaches(s, s.(status := Entry(s, arg.cid, Pinned), pinBusy := false, threads := rest))
  {
    hide Reaches;
    var end := s.(status := Entry(s, arg.cid, Pinned), pinBusy := false, threads := rest);
    ReachesSelf(end);
    assert rest + Ends.Threads() == rest;
    Spelled(s, InFlight(arg), rest, Ends, end, end);
  }

  lemma UnpinReturned(s: State, rest: multiset<Thread>, arg: CidArg)
    requires s.threads == rest + multiset{InFlight(arg)} + multiset{UnpinReturn(ArgFor(arg.cid), true, FreeWorker)}
    ensures Reaches(s, s.(status := Entry(s, arg.cid, Pinned), pinBusy := false, unpinBusy := false, threads := rest))
  {
    hide Reaches;
    var c := arg.cid;
    var next := s.(status := s.status - {c}, unpinBusy := false, threads := rest + multiset{InFlight(arg)});
    LateResult(next, rest, arg);
    assert rest + multiset{InFlight(arg)} + Ends.Threads() == rest + multiset{InFlight(arg)};
    assert Entry(next, c, Pinned) == Entry(s, c, Pinned);
    Spelled(s, UnpinReturn(ArgFor(c), true, FreeWorker), rest + multiset{InFlight(arg)}, Ends, next,
            s.(status := Entry(s, c, Pinned), pinBusy := false, unpinBusy := false, threads := rest));
  }

  /** The unpin worker serves `c` while the pin result is on its way. */
  lemma UnpinCalled(s: State, rest: multiset<Thread>, arg: CidArg)
    requires s.threads == rest + multiset{InFlight(arg)} + multiset{UnpinCall(ArgFor(arg.cid), FreeWorker)}
    ensures Reaches(s, Overtaken(s, rest, arg.cid))
  {
    hide Reaches, IpfsUnpin;
    var c := arg.cid;
    var k := Becomes(UnpinReturn(ArgFor(c), true, FreeWorker));
    var next := s.(daemon := IpfsUnpin(s.daemon, c, Done), threads := rest + multiset{InFlight(arg)} + k.Threads());
    UnpinReturned(next, rest, arg);
    Spelled(s, UnpinCall(ArgFor(c), FreeWorker), rest + multiset{InFlight(arg)}, k, next, Overtaken(s, rest, c));
  }

  lemma UntrackQueued(s: State, rest: multiset<Thread>, arg: CidArg)
    requires s.threads == rest + multiset{InFlight(arg)} + multiset{UntrackEnqueue(arg.cid)}
    requires s.unpinCh == [] && s.capacity > 0 && !s.unpinBusy
    ensures Reaches(s, Overtaken(s, rest, arg.cid))
  {
    hide Reaches, Overtaken;
    var c := arg.cid;
    var base := rest + multiset{InFlight(arg)};
    var taken := s.(unpinBusy := true, threads := base + multiset{UnpinCall(ArgFor(c), FreeWorker)});
    var queued := s.(threads := base, unpinCh := [ArgFor(c)]);
    UnpinCalled(taken, rest, arg);
    assert Overtaken(taken, rest, c) == Overtaken(s, rest, c) by { SameOvertaken(s, taken, rest, c); }
    TakeOnly(queued, taken);
    StepThenReaches(queued, TakeUnpin, Overtaken(s, rest, c));
    Enqueued(s, base, c);
    StepThenReaches(s, Run(UntrackEnqueue(c), NOW), Overtaken(s, rest, c));
  }

  lemma TakeOnly(s: State, s': State)
    requires |s.unpinCh| == 1 && !s.unpinBusy
    requires s' == s.(unpinCh := [], unpinBusy := true,
                      threads := s.threads + multiset{UnpinCall(s.unpinCh[0], FreeWorker)})
    ensures Enabled(s, TakeUnpin) && Step(s, TakeUnpin) == s'
  {
    assert s.unpinCh[1..] == [];
  }

  lemma Enqueued(s: State, base: multiset<Thread>, c: Cid)
    requires s.threads == base + multiset{UntrackEnqueue(c)} && s.unpinCh == [] && s.capacity > 0
    ensures Enabled(s, Run(UntrackEnqueue(c), NOW))
    ensures Step(s, Run(UntrackEnqueue(c), NOW)) == s.(threads := base, unpinCh := [ArgFor(c)])
  {
    EnqueueEnds(s, UntrackEnqueue(c));
    hide Next, ApplyUpdate, UpdateOf, DaemonAfter;
    assert s.threads - multiset{UntrackEnqueue(c)} + multiset{} == base;
    assert [] + [ArgFor(c)] == [ArgFor(c)];
  }

  lemma EnqueueEnds(s: State, t: Thread)
    requires (t.UntrackEnqueue? && |s.unpinCh| < s.capacity) || (t.TrackEnqueue? && |s.pinCh| < s.capacity)
    ensures Next(s, t, NOW) == Ends && Ends.Threads() == multiset{} && !Trouble(s, t, NOW)
    ensures ApplyUpdate(s.status, s.self, UpdateOf(t, NOW), 0.0) == s.status && DaemonAfter(s.daemon, t, Done) == s.daemon
  {
  }

  lemma SameOvertaken(s: State, s': State, rest: multiset<Thread>, c: Cid)
    requires s'.status == s.status[c := PinInfo(c, s.self, Unpinning, 0.0, "")] || s'.status == s.status
    requires s' == s.(status := s'.status, threads := s'.threads, unpinBusy := s'.unpinBusy)
    ensures Overtaken(s', rest, c) == Overtaken(s, rest, c)
  {
    assert Entry(s', c, Pinned) == Entry(s, c, Pinned);
  }

  /** An Untrack called now reaches the daemon after the pin and is recorded before it. */
  lemma UntrackOvertakes(s: State, rest: multiset<Thread>, arg: CidArg)
    requires s.threads == rest + multiset{InFlight(arg)}
    requires s.unpinCh == [] && s.capacity > 0 && !s.unpinBusy
    ensures Reaches(Add(s, UntrackSet(arg.cid)), Overtaken(s, rest, arg.cid))
  {
    hide Reaches, Overtaken;
    var c := arg.cid;
    var k := Becomes(UntrackEnqueue(c));
    var next := s.(status := Entry(s, c, Unpinning), threads := rest + multiset{InFlight(arg)} + k.Threads());
    UntrackQueued(next, rest, arg);
    SameOvertaken(s, next, rest, c);
    Spelled(Add(s, UntrackSet(c)), UntrackSet(c), rest + multiset{InFlight(arg)}, k, next, Overtaken(s, rest, c));
  }

  // ---- exactly when ---------------------------------------------------------------------------------

  /** A run without further calls about `c`, without failures and full queues, until `c` is idle. */
  ghost predicate CleanRun(s: State, acts: seq<Action>, c: Cid) {
    IsRun(s, acts) && CallsQuiet(acts, c) && Idle(Exec(s, acts), c) && !Exec(s, acts).trouble
  }

  ghost predicate AlwaysAgrees(s: State, c: Cid) {
    forall acts :: CleanRun(s, acts, c) ==> Agrees(Exec(s, acts), c)
  }

  lemma OvertakenDisagrees(s: State, arg: CidArg, was: bool)
    requires OnTrack(s, arg, was, Running(InFlight(arg))) && s.unpinCh == []
    ensures var end := Overtaken(s, s.threads - multiset{InFlight(arg)}, arg.cid);
      Idle(end, arg.cid) && !end.trouble && !Agrees(end, arg.cid)
  {
    hide Inv;
  }

  lemma SomeRunDisagrees(s: State, arg: CidArg, was: bool, stage: Stage)
    requires OnTrack(s, arg, was, stage) && !stage.Settled?
    ensures !AlwaysAgrees(Add(s, UntrackSet(arg.cid)), arg.cid)
  {
    hide Reaches, OnTrack, IsRun, Exec;
    var c, u := arg.cid, UntrackSet(arg.cid);
    var s1 := FromAnywhere(s, arg, was, stage);
    var s2 := EmptyUnpins(s1, arg, was);
    TrackFacts(s2, arg, was, Running(InFlight(arg)));
    var rest := s2.threads - multiset{InFlight(arg)};
    UntrackOvertakes(s2, rest, arg);
    ReachesOn(s, s1, s2);
    ReachesBeside(s, s2, multiset{u});
    ReachesOn(Add(s, u), Add(s2, u), Overtaken(s2, rest, c));
    OvertakenDisagrees(s2, arg, was);
    DisagreementReached(Add(s, u), Overtaken(s2, rest, c), c);
  }

  lemma DisagreementReached(s: State, end: State, c: Cid)
    requires Reaches(s, end) && Idle(end, c) && !end.trouble && !Agrees(end, c)
    ensures !AlwaysAgrees(s, c)
  {
    hide IsRun, Exec, Idle, Agrees;
    var acts :| NoCalls(acts) && IsRun(s, acts) && Exec(s, acts) == end;
    assert CleanRun(s, acts, c);
  }

  /** An Untrack called once the Track has settled drops the CID in the tracker and the daemon. */
  lemma SettledFirst(s: State, arg: CidArg, was: bool, acts: seq<Action>)
    requires OnTrack(s, arg, was, Settled) && CleanRun(Add(s, UntrackSet(arg.cid)), acts, arg.cid)
    ensures var s' := Exec(Add(s, UntrackSet(arg.cid)), acts);
      arg.cid !in s'.status && !Holds(s'.daemon, arg.cid)
  {
    hide IsRun, Exec, Inv;
    var c, u := arg.cid, UntrackSet(arg.cid);
    assert Add(s, u).threads - multiset{u} == s.threads;
    assert At(Add(s, u), Untrack(c, true), Running(u));
    Settles(Add(s, u), Untrack(c, true), Running(u), acts);
  }

  /** A local Track of `arg` at any stage, next to any work on other CIDs, and then an Untrack of it:
      every clean run ends with Pinned meaning pinned if and only if the Track had settled. */
  lemma RaceExactly(s: State, arg: CidArg, was: bool, stage: Stage)
    requires OnTrack(s, arg, was, stage)
    ensures AlwaysAgrees(Add(s, UntrackSet(arg.cid)), arg.cid) <==> stage.Settled?
  {
    hide OnTrack, IsRun, Exec, Idle;
    var s0 := Add(s, UntrackSet(arg.cid));
    if stage.Settled? {
      forall acts | CleanRun(s0, acts, arg.cid)
        ensures Agrees(Exec(s0, acts), arg.cid)
      {
        SettledFirst(s, arg, was, acts);
      }
    } else {
      SomeRunDisagrees(s, arg, was, stage);
    }
  }

  // ---- from scratch -----------------------------------------------------------------------------------

  ghost predicate Disagrees(s: State, c: Cid) {
    Quiescent(s) && !s.trouble && StatusOf(s.status, c) == Pinned && !Holds(s.daemon, c)
  }

  /** Some run from `s` ends with the tracker Pinned on `c` and the daemon without it. */
  ghost predicate MayDisagree(s: State, c: Cid) {
    exists acts :: IsRun(s, acts) && Disagrees(Exec(s, acts), c)
  }

  lemma Earlier(s: State, a: Action, c: Cid)
    requires Enabled(s, a) && MayDisagree(Step(s, a), c)
    ensures MayDisagree(s, c)
  {
    hide Enabled, Step, Disagrees;
    var rest :| IsRun(Step(s, a), rest) && Disagrees(Exec(Step(s, a), rest), c);
    var acts := [a] + rest;
    assert acts[0] == a && acts[1..] == rest;
    assert IsRun(s, acts) && Exec(s, acts) == Exec(Step(s, a), rest);
  }

  lemma {:induction false} MuchEarlier(s: State, acts: seq<Action>, c: Cid)
    requires IsRun(s, acts) && MayDisagree(Exec(s, acts), c)
    ensures MayDisagree(s, c)
    decreases |acts|
  {
    hide Enabled, Step, MayDisagree;
    if acts != [] {
      MuchEarlier(Step(s, acts[0]), acts[1..], c);
      Earlier(s, acts[0], c);
    }
  }

  lemma ReachesEarlier(s: State, s': State, c: Cid)
    requires Reaches(s, s') && MayDisagree(s', c)
    ensures MayDisagree(s, c)
  {
    hide IsRun, Exec, MayDisagree;
    var acts :| NoCalls(acts) && IsRun(s, acts) && Exec(s, acts) == s';
    MuchEarlier(s, acts, c);
  }

  /** A Track on its own, up to the pin result. */
  function Tracked(s: State, arg: CidArg): State {
    s.(status := Entry(s, arg.cid, Pinning), daemon := IpfsPin(s.daemon, arg.cid, Done), pinBusy := true,
       threads := multiset{InFlight(arg)})
  }

  lemma PinServed(s: State, arg: CidArg)
    requires s.threads == multiset{PinSet(arg, FreeWorker)} && s.pinBusy
    ensures Reaches(s, Tracked(s, arg))
  {
    hide Reaches, IpfsPin;
    var end := Tracked(s, arg);
    var called := Becomes(PinCall(arg, FreeWorker));
    var s1 := s.(status := Entry(s, arg.cid, Pinning), threads := multiset{} + called.Threads());
    ReachesSelf(end);
    Spelled(s1, PinCall(arg, FreeWorker), multiset{}, Becomes(InFlight(arg)), end, end);
    Spelled(s, PinSet(arg, FreeWorker), multiset{}, called, s1, end);
  }

  lemma TrackServed(s: State, arg: CidArg)
    requires Quiescent(s) && !s.pinBusy && s.capacity > 0 && !IsRemote(s.self, arg)
    ensures Reaches(Add(s, TrackSet(arg)), Tracked(s, arg))
  {
    hide Reaches, Tracked;
    var end := Tracked(s, arg);
    var k := Becomes(TrackEnqueue(arg));
    var marked := s.(status := Entry(s, arg.cid, Pinning), threads := multiset{} + k.Threads());
    var queued := marked.(threads := multiset{}, pinCh := [arg]);
    var taken := marked.(threads := multiset{PinSet(arg, FreeWorker)}, pinBusy := true);
    PinServed(taken, arg);
    assert Tracked(taken, arg) == end by { SameTracked(s, taken, arg); }
    assert Step(queued, TakePin) == taken by {
      assert queued.pinCh[1..] == [];
      assert queued.threads + multiset{PinSet(arg, FreeWorker)} == taken.threads;
    }
    StepThenReaches(queued, TakePin, end);
    PinEnqueued(marked, arg);
    StepThenReaches(marked, Run(TrackEnqueue(arg), NOW), end);
    Spelled(Add(s, TrackSet(arg)), TrackSet(arg), multiset{}, k, marked, end);
  }

  lemma SameTracked(s: State, s': State, arg: CidArg)
    requires s'.status == Entry(s, arg.cid, Pinning)
    requires s' == s.(status := s'.status, threads := s'.threads, pinBusy := s'.pinBusy)
    ensures Tracked(s', arg) == Tracked(s, arg)
  {
    assert Entry(s', arg.cid, Pinning) == Entry(s, arg.cid, Pinning);
  }

  lemma PinEnqueued(s: State, arg: CidArg)
    requires s.threads == multiset{TrackEnqueue(arg)} && s.pinCh == [] && s.capacity > 0
    ensures Enabled(s, Run(TrackEnqueue(arg), NOW))
    ensures Step(s, Run(TrackEnqueue(arg), NOW)) == s.(threads := multiset{}, pinCh := [arg])
  {
    EnqueueEnds(s, TrackEnqueue(arg));
    hide Next, ApplyUpdate, UpdateOf, DaemonAfter;
    assert s.threads - multiset{TrackEnqueue(arg)} + multiset{} == multiset{};
    assert [] + [arg] == [arg];
  }

  /** Track then Untrack on a quiet tracker: the unpin reaches the daemon after the pin but is recorded
      before it, and the CID ends up Pinned although the daemon lacks it, without any failure. */
  lemma RaceLosesAgreement(s: State, arg: CidArg)
    requires Quiescent(s) && !s.pinBusy && !s.unpinBusy && s.capacity > 0 && !s.trouble && !IsRemote(s.self, arg)
    ensures MayDisagree(s, arg.cid)
  {
    hide Reaches, MayDisagree, IpfsPin, IpfsUnpin;
    var c, t, u := arg.cid, TrackSet(arg), UntrackSet(arg.cid);
    var s1 := Tracked(s, arg);
    TrackServed(s, arg);
    UntrackOvertakes(s1, multiset{}, arg);
    OvertakenMayDisagree(s1, c);
    ReachesEarlier(Add(s1, u), Overtaken(s1, multiset{}, c), c);
    Earlier(s1, Call(u), c);
    ReachesEarlier(Add(s, t), s1, c);
    Earlier(s, Call(t), c);
  }

  lemma OvertakenMayDisagree(s: State, c: Cid)
    requires s.pinCh == [] && s.unpinCh == [] && !s.trouble
    ensures MayDisagree(Overtaken(s, multiset{}, c), c)
  {
    var end := Overtaken(s, multiset{}, c);
    assert IsRun(end, []) && Disagrees(Exec(end, []), c);
  }
}
