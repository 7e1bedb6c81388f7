/** Repair under every interleaving: after SyncAll, any number of Recover calls run at once. */
module Recovery {
  import opened Types
  import opened TrackerMap
  import opened TrackerMachine
  import opened Reachability
  import opened PendingWork
  import opened Drain
  import opened Settling
  import opened TrackerSpec
  import opened PinTracker
  import opened Repair

  /** `t` is part of a Recover of `c`, which was in status `was` before. */
  predicate Recoverer(t: Thread, c: Cid, was: TrackerStatus) {
    match t
    case RecoverGet(x) => x == c
    case PinSet(arg, k) => arg.cid == c && k == Return && was == PinError
    case PinCall(arg, k) => arg.cid == c && k == Return && was == PinError
    case PinReturn(arg, ok, k) => arg.cid == c && k == Return && was == PinError && ok
    case UnpinCall(arg, k) => arg.cid == c && k == Return && was == UnpinError
    case UnpinReturn(arg, ok, k) => arg.cid == c && k == Return && was == UnpinError && ok
    case _ => false
  }

  /** A goroutine that leaves `c` alone or recovers it, and has the daemon behind what it will record. */
  predicate ThreadFits(t: Thread, c: Cid, was: TrackerStatus, held: bool) {
    Quiet(t, c) || (Recoverer(t, c, was) && (t.PinReturn? ==> held) && (t.UnpinReturn? ==> !held))
  }

  ghost predicate Busy(s: State, c: Cid) {
    exists t :: t in s.threads && !Quiet(t, c)
  }

  /** The fate of `c`, by what it was: never unpinned when it is to be pinned, and the reverse. */
  predicate EntryFits(s: State, c: Cid, was: TrackerStatus, ips: IpfsPinStatus) {
    var st, held := StatusOf(s.status, c), Holds(s.daemon, c);
    match was
    case PinError => (st == PinError || st == Pinning || st == Pinned) && (st == Pinned ==> held)
    case UnpinError => (st == UnpinError || st == Unpinned) && (st == Unpinned ==> !held)
    case _ => st == was && IpfsStatus(s.daemon, c) == ips
  }

  ghost predicate Recovering(s: State, c: Cid, was: TrackerStatus, ips: IpfsPinStatus) {
    && NotQueued(s.pinCh, c) && NotQueued(s.unpinCh, c)
    && (forall t :: t in s.threads ==> ThreadFits(t, c, was, Holds(s.daemon, c)))
    && EntryFits(s, c, was, ips)
    && (Broken(s, c) ==> Busy(s, c))
  }

  /** The daemon does not fail, and new calls that concern `c` are Recovers. */
  ghost predicate Mild(acts: seq<Action>, c: Cid) {
    forall i :: 0 <= i < |acts| ==> MildAction(acts[i], c)
  }

  ghost predicate MildAction(a: Action, c: Cid) {
    (a.Run? ==> a.env.out.Done?) && (a.Call? ==> Quiet(a.call, c) || a.call == RecoverGet(c))
  }

  lemma QuietDaemon(s: State, t: Thread, env: Env, c: Cid)
    requires t in s.threads && Quiet(t, c)
    ensures var s' := Fire(s, t, env);
      StatusOf(s'.status, c) == StatusOf(s.status, c) && IpfsStatus(s'.daemon, c) == IpfsStatus(s.daemon, c)
  {
  }

  lemma SameEntryFits(s: State, s': State, c: Cid, was: TrackerStatus, ips: IpfsPinStatus)
    requires StatusOf(s'.status, c) == StatusOf(s.status, c) && IpfsStatus(s'.daemon, c) == IpfsStatus(s.daemon, c)
    ensures EntryFits(s', c, was, ips) == EntryFits(s, c, was, ips)
    ensures Holds(s'.daemon, c) == Holds(s.daemon, c) && Broken(s', c) == Broken(s, c)
  {
  }

  lemma QuietKeepsRecovering(s: State, t: Thread, env: Env, c: Cid, was: TrackerStatus, ips: IpfsPinStatus)
    requires Recovering(s, c, was, ips) && t in s.threads && Quiet(t, c)
    ensures Recovering(Fire(s, t, env), c, was, ips)
  {
    hide ApplyUpdate, DaemonAfter, Trouble, UpdateOf, Next, Quiet, Recoverer, EntryFits, Holds, StatusOf, Broken;
    hide NotQueued, Grown;
    var s', k := Fire(s, t, env), Next(s, t, env);
    QuietDaemon(s, t, env, c);
    SameEntryFits(s, s', c, was, ips);
    QuietNext(s, t, env, c);
    QuietQueues(s, t, env, c);
    GrownQueue(s.pinCh, s'.pinCh, c, 0);
    GrownQueue(s.unpinCh, s'.unpinCh, c, 0);
    if Broken(s', c) {
      var w :| w in s.threads && !Quiet(w, c);
      assert w in s'.threads;
    }
  }

  lemma RecovererSteps(s: State, t: Thread, env: Env, c: Cid, was: TrackerStatus, ips: IpfsPinStatus)
    requires EntryFits(s, c, was, ips) && t in s.threads && env.out.Done?
    requires Recoverer(t, c, was) && ThreadFits(t, c, was, Holds(s.daemon, c))
    ensures var s', k := Fire(s, t, env), Next(s, t, env);
      && EntryFits(s', c, was, ips) && s'.pinCh == s.pinCh && s'.unpinCh == s.unpinCh
      && (k.Ends? || (k.Becomes? && Recoverer(k.t, c, was) && ThreadFits(k.t, c, was, Holds(s'.daemon, c))))
      && (k.Ends? ==> !Broken(s', c))
      && (was == PinError && Holds(s.daemon, c) ==> Holds(s'.daemon, c))
      && (was == UnpinError && !Holds(s.daemon, c) ==> !Holds(s'.daemon, c))
  {
  }

  lemma RecovererKeepsRecovering(s: State, t: Thread, env: Env, c: Cid, was: TrackerStatus, ips: IpfsPinStatus)
    requires Recovering(s, c, was, ips) && t in s.threads && !Quiet(t, c) && env.out.Done?
    ensures Recovering(Fire(s, t, env), c, was, ips)
  {
    hide ApplyUpdate, DaemonAfter, Trouble, UpdateOf, Next, EntryFits, NotQueued, Holds, StatusOf;
    assert ThreadFits(t, c, was, Holds(s.daemon, c));
    RecovererSteps(s, t, env, c, was, ips);
    var s', k := Fire(s, t, env), Next(s, t, env);
    forall w | w in s'.threads
      ensures ThreadFits(w, c, was, Holds(s'.daemon, c))
    {
      assert k.Ends? || w == k.t || w in s.threads;
    }
    if Broken(s', c) {
      assert k.t in s'.threads && !Quiet(k.t, c);
    }
  }

  lemma RecoveringStep(s: State, a: Action, c: Cid, was: TrackerStatus, ips: IpfsPinStatus)
    requires Recovering(s, c, was, ips) && Enabled(s, a) && MildAction(a, c)
    ensures Recovering(Step(s, a), c, was, ips)
  {
    hide EntryFits;
    if a.Run? {
      if Quiet(a.t, c) {
        QuietKeepsRecovering(s, a.t, a.env, c, was, ips);
      } else {
        RecovererKeepsRecovering(s, a.t, a.env, c, was, ips);
      }
    } else {
      OthersKeepRecovering(s, a, c, was, ips);
    }
  }

  lemma OthersKeepRecovering(s: State, a: Action, c: Cid, was: TrackerStatus, ips: IpfsPinStatus)
    requires Recovering(s, c, was, ips) && Enabled(s, a) && MildAction(a, c) && !a.Run?
    ensures Recovering(Step(s, a), c, was, ips)
  {
    var s' := Step(s, a);
    var t := match a
      case TakePin => PinSet(s.pinCh[0], FreeWorker)
      case TakeUnpin => UnpinCall(s.unpinCh[0], FreeWorker)
      case Call(u) => u;
    assert s'.threads == s.threads + multiset{t} && ThreadFits(t, c, was, Holds(s.daemon, c));
    if Broken(s', c) {
      var w :| w in s.threads && !Quiet(w, c);
      assert w in s'.threads;
    }
  }

  lemma {:induction false} RecoveringRun(s: State, acts: seq<Action>, c: Cid, was: TrackerStatus, ips: IpfsPinStatus)
    requires Recovering(s, c, was, ips) && IsRun(s, acts) && Mild(acts, c)
    ensures Recovering(Exec(s, acts), c, was, ips)
    decreases |acts|
  {
    hide Recovering, Enabled, Step, MildAction;
    if acts != [] {
      assert forall i :: 0 <= i < |acts[1..]| ==> acts[1..][i] == acts[i + 1];
      RecoveringStep(s, acts[0], c, was, ips);
      RecoveringRun(Step(s, acts[0]), acts[1..], c, was, ips);
    }
  }

  // ---- Recovers at once -------------------------------------------------------------------------

  predicate RepairAction(a: Action) {
    (a.Run? ==> a.env.out.Done?) && (a.Call? ==> a.call.RecoverGet?)
  }

  /** The calls of `crowd`, Recovers of any CIDs, each any number of times, and more of them later,
      in any interleaving until nothing is left to do, with a daemon that does not fail. */
  ghost predicate RecoverRun(s: State, crowd: multiset<Thread>, acts: seq<Action>) {
    && (forall t :: t in crowd ==> t.RecoverGet?)
    && (forall i :: 0 <= i < |acts| ==> RepairAction(acts[i]))
    && IsRun(Beside(s, crowd), acts) && Quiescent(Exec(Beside(s, crowd), acts))
  }

  ghost function Recovered(s: State, crowd: multiset<Thread>, acts: seq<Action>): State
    requires RecoverRun(s, crowd, acts)
  {
    Exec(Beside(s, crowd), acts)
  }

  lemma {:induction false} CrowdInv(s: State, crowd: multiset<Thread>)
    requires Inv(s) && forall t :: t in crowd ==> t.RecoverGet?
    ensures Inv(Beside(s, crowd))
    decreases |crowd|
  {
    hide Inv;
    if crowd == multiset{} {
      assert Beside(s, crowd) == s;
    } else {
      var t :| t in crowd;
      var rest := crowd - multiset{t};
      CrowdInv(s, rest);
      StepKeepsInv(Beside(s, rest), Call(t));
      assert s.threads + rest + multiset{t} == s.threads + crowd;
    }
  }

  lemma RecoversStart(s: State, crowd: multiset<Thread>, c: Cid)
    requires Inv(s) && Quiescent(s) && forall t :: t in crowd ==> t.RecoverGet?
    requires Broken(s, c) ==> RecoverGet(c) in crowd
    ensures Recovering(Beside(s, crowd), c, StatusOf(s.status, c), IpfsStatus(s.daemon, c))
  {
    assert EntryOk(s, c);
    if Broken(s, c) {
      assert RecoverGet(c) in Beside(s, crowd).threads;
    }
  }

  lemma RecoversEnd(s: State, c: Cid, was: TrackerStatus, ips: IpfsPinStatus)
    requires Inv(s) && Quiescent(s) && Recovering(s, c, was, ips)
    ensures was == PinError ==> StatusOf(s.status, c) == Pinned && Holds(s.daemon, c)
    ensures was == UnpinError ==> c !in s.status && !Holds(s.daemon, c)
    ensures was != PinError && was != UnpinError ==>
      StatusOf(s.status, c) == was && IpfsStatus(s.daemon, c) == ips && (was == Unpinned ==> c !in s.status)
  {
    assert EntryOk(s, c);
  }

  /** From any quiescent tracker: an error entry that is recovered at least once ends repaired, in
      the tracker and in the daemon, and an entry without error keeps its status and its pin. */
  lemma RecoverEach(s: State, crowd: multiset<Thread>, acts: seq<Action>, c: Cid)
    requires Inv(s) && Quiescent(s) && RecoverRun(s, crowd, acts)
    requires Broken(s, c) ==> RecoverGet(c) in crowd
    ensures var s', was := Recovered(s, crowd, acts), StatusOf(s.status, c);
      && (was == PinError ==> StatusOf(s'.status, c) == Pinned && Holds(s'.daemon, c))
      && (was == UnpinError ==> c !in s'.status && !Holds(s'.daemon, c))
      && (!Broken(s, c) ==> SameCid(s, s', c) && (was == Unpinned ==> c !in s'.status))
    ensures Inv(Recovered(s, crowd, acts))
  {
    hide IsRun, Exec, Inv, Recovering;
    var s0, was := Beside(s, crowd), StatusOf(s.status, c);
    RecoversStart(s, crowd, c);
    assert Mild(acts, c);
    RecoveringRun(s0, acts, c, was, IpfsStatus(s.daemon, c));
    CrowdInv(s, crowd);
    PendingWorkInvariant(s0, acts);
    RecoversEnd(Exec(s0, acts), c, was, IpfsStatus(s.daemon, c));
  }

  /** Such a run always exists. */
  lemma RecoverRunExists(s: State, crowd: multiset<Thread>) returns (acts: seq<Action>)
    requires Inv(s) && forall t :: t in crowd ==> t.RecoverGet?
    ensures RecoverRun(s, crowd, acts)
  {
    hide Inv, IsRun, Exec;
    CrowdInv(s, crowd);
    acts := CanDrain(Beside(s, crowd));
  }

  // ---- the repair theorem -----------------------------------------------------------------------

  lemma SyncedInv(s: State, now: Time)
    requires Inv(s)
    ensures Inv(Synced(s, now))
  {
    hide Inv, Reaches, SyncAllMap, IsRun, Exec;
    StepKeepsInv(s, Call(SyncAllCall));
    SyncAllIsRun(s, RecursivePins(s.daemon), now);
    ReachesKeepsInv(Add(s, SyncAllCall), Synced(s, now));
  }

  lemma ReachesKeepsInv(s: State, s': State)
    requires Inv(s) && Reaches(s, s')
    ensures Inv(s')
  {
    hide Inv, IsRun, Exec;
    var acts :| NoCalls(acts) && IsRun(s, acts) && Exec(s, acts) == s';
    PendingWorkInvariant(s, acts);
  }

  /** SyncAll at `now`, then Recovers of every CID it left in an error state. */
  ghost predicate RepairRun(s: State, crowd: multiset<Thread>, now: Time, acts: seq<Action>) {
    && RecoverRun(Synced(s, now), crowd, acts)
    && (forall c :: Broken(Synced(s, now), c) ==> RecoverGet(c) in crowd)
  }

  ghost function Repaired(s: State, crowd: multiset<Thread>, now: Time, acts: seq<Action>): State
    requires RepairRun(s, crowd, now, acts)
  {
    Recovered(Synced(s, now), crowd, acts)
  }

  lemma SyncedStable(s: State, now: Time, c: Cid)
    requires Inv(s) && Quiescent(s)
    ensures c in s.status <==> StatusOf(s.status, c) != Unpinned
    ensures StatusOf(Synced(s, now).status, c) ==
      match StatusOf(s.status, c)
      case Pinned => if IpfsStatus(s.daemon, c) == Recursive then Pinned else PinError
      case PinError => if IpfsStatus(s.daemon, c) == Recursive then Pinned else PinError
      case UnpinError => if IpfsStatus(s.daemon, c) == Recursive then UnpinError else Unpinned
      case st => st
    ensures var st := StatusOf(s.status, c);
      st == Pinned || st == PinError || st == UnpinError || st == Remote || st == Unpinned
  {
    assert EntryOk(s, c);
    SyncedEntry(s, now, c);
  }

  /** The fate of one CID through the repair. */
  lemma RepairEntry(s: State, crowd: multiset<Thread>, now: Time, acts: seq<Action>, c: Cid)
    requires Inv(s) && Quiescent(s) && RepairRun(s, crowd, now, acts)
    ensures var s', st := Repaired(s, crowd, now, acts), StatusOf(s.status, c);
      && ((st == Pinned || st == PinError) ==> StatusOf(s'.status, c) == Pinned && Holds(s'.daemon, c))
      && (st == Remote ==> StatusOf(s'.status, c) == Remote)
      && ((st == UnpinError || st == Unpinned) ==> c !in s'.status)
      && (st == UnpinError ==> (Holds(s'.daemon, c) <==> IpfsStatus(s.daemon, c) == Direct))
      && (st == Remote || st == Unpinned ==> IpfsStatus(s'.daemon, c) == IpfsStatus(s.daemon, c))
    ensures Inv(Repaired(s, crowd, now, acts))
  {
    hide IsRun, Exec, SyncAllMap, Inv;
    SyncedStable(s, now, c);
    SyncedInv(s, now);
    RecoverEach(Synced(s, now), crowd, acts, c);
  }

  /** From any quiescent tracker, however the Recovers overlap: no error is left, what stays is
      Remote or Pinned and pinned in the daemon, and exactly the CIDs in UnpinError leave the map. */
  lemma RepairConverges(s: State, crowd: multiset<Thread>, now: Time, acts: seq<Action>)
    requires Inv(s) && Quiescent(s) && RepairRun(s, crowd, now, acts)
    ensures var s' := Repaired(s, crowd, now, acts);
      && (forall c :: c in s'.status ==>
           s'.status[c].status == Remote || (s'.status[c].status == Pinned && Holds(s'.daemon, c)))
      && (forall c :: c in s'.status <==> c in s.status && s.status[c].status != UnpinError)
  {
    hide RepairRun, Inv;
    var s' := Repaired(s, crowd, now, acts);
    forall c
      ensures c in s'.status ==>
        s'.status[c].status == Remote || (s'.status[c].status == Pinned && Holds(s'.daemon, c))
      ensures c in s'.status <==> c in s.status && s.status[c].status != UnpinError
    {
      hide Repaired;
      SyncedStable(s, now, c);
      RepairEntry(s, crowd, now, acts, c);
    }
  }

  /** SyncAll asks the daemon for recursive pins only. So the CIDs that leave the map are all
      unpinned if and only if none of those to be unpinned was held by a direct pin. */
  lemma RepairUnpins(s: State, crowd: multiset<Thread>, now: Time, acts: seq<Action>)
    requires Inv(s) && Quiescent(s) && RepairRun(s, crowd, now, acts)
    ensures var s' := Repaired(s, crowd, now, acts);
      (forall c :: c in s.status && c !in s'.status ==> !Holds(s'.daemon, c))
      <==> (forall c :: c in s.status && s.status[c].status == UnpinError ==> IpfsStatus(s.daemon, c) != Direct)
  {
    hide RepairRun, Repaired, Inv;
    var s' := Repaired(s, crowd, now, acts);
    forall c
      ensures c in s.status && c !in s'.status <==> StatusOf(s.status, c) == UnpinError
      ensures StatusOf(s.status, c) == UnpinError ==> (Holds(s'.daemon, c) <==> IpfsStatus(s.daemon, c) == Direct)
    {
      SyncedStable(s, now, c);
      RepairEntry(s, crowd, now, acts, c);
    }
  }

  /** A CID that should be unpinned but is pinned directly: every repair drops it and leaves it pinned. */
  lemma DirectPinSurvives(s: State, crowd: multiset<Thread>, now: Time, acts: seq<Action>, c: Cid)
    requires Inv(s) && Quiescent(s) && RepairRun(s, crowd, now, acts)
    requires c in s.status && s.status[c].status == UnpinError && IpfsStatus(s.daemon, c) == Direct
    ensures c !in Repaired(s, crowd, now, acts).status && Holds(Repaired(s, crowd, now, acts).daemon, c)
  {
    hide RepairRun, Repaired, Inv;
    RepairEntry(s, crowd, now, acts, c);
  }

  /** Such a tracker, and a repair of it, exist. */
  lemma DirectPinExample(c: Cid, now: Time) returns (s: State, acts: seq<Action>)
    ensures Inv(s) && Quiescent(s) && RepairRun(s, multiset{}, now, acts)
    ensures c in s.status && s.status[c].status == UnpinError && IpfsStatus(s.daemon, c) == Direct
  {
    s := State("", 1, map[c := PinInfo(c, "", UnpinError, now, ERR_RPC)], [], [], false, false, multiset{},
               map[c := Direct], false);
    forall x {
      SyncedStable(s, now, x);
    }
    SyncedInv(s, now);
    acts := RecoverRunExists(Synced(s, now), multiset{});
  }
}
