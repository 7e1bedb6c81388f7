/** Repair and StateSync together bring a tracker back to the shared state, in this order only. */
module SelfHealing {
  import opened Types
  import opened TrackerMap
  import opened TrackerMachine
  import opened Reachability
  import opened PendingWork
  import opened Settling
  import opened Convergence
  import opened Repair
  import opened Recovery

  /** From now on `trouble` tells whether anything fails again. */
  function Calm(s: State): State {
    s.(trouble := false)
  }

  lemma CalmInv(s: State)
    requires Inv(s)
    ensures Inv(Calm(s))
  {
    assert forall c :: EntryOk(s, c) ==> EntryOk(Calm(s), c);
  }

  /** StateSync for `pins` until nothing is left to do, without failures and full queues. */
  ghost predicate SyncRun(s: State, pins: map<Cid, CidArg>, order: seq<CidArg>, acts: seq<Action>) {
    && Lists(order, pins) && NoCalls(acts)
    && IsRun(Add(s, StateSyncTrack(order, pins.Keys)), acts)
    && Quiescent(Exec(Add(s, StateSyncTrack(order, pins.Keys)), acts))
    && !Exec(Add(s, StateSyncTrack(order, pins.Keys)), acts).trouble
  }

  ghost function Synchronised(s: State, pins: map<Cid, CidArg>, order: seq<CidArg>, acts: seq<Action>): State
    requires SyncRun(s, pins, order, acts)
  {
    Exec(Add(s, StateSyncTrack(order, pins.Keys)), acts)
  }

  lemma SyncEntry(s: State, pins: map<Cid, CidArg>, order: seq<CidArg>, acts: seq<Action>, c: Cid)
    requires Quiescent(s) && Inv(s) && SyncRun(s, pins, order, acts)
    ensures var s' := Synchronised(s, pins, order, acts);
      && (c in pins <==> c in s'.status)
      && (c in pins && c in s.status ==> s'.status[c] == s.status[c] && Holds(s'.daemon, c) == Holds(s.daemon, c))
      && (c in pins && c !in s.status ==>
            StatusOf(s'.status, c) == Remote || (StatusOf(s'.status, c) == Pinned && Holds(s'.daemon, c)))
      && (c !in pins && (c in s.status || !Holds(s.daemon, c)) ==> !Holds(s'.daemon, c))
  {
    hide IsRun, Exec, Inv;
    StateSyncConverges(s, pins, order, acts, c);
  }

  lemma SyncKeepsInv(s: State, pins: map<Cid, CidArg>, order: seq<CidArg>, acts: seq<Action>)
    requires Quiescent(s) && Inv(s) && SyncRun(s, pins, order, acts)
    ensures Inv(Synchronised(s, pins, order, acts)) && Quiescent(Synchronised(s, pins, order, acts))
  {
    hide IsRun, Exec, Inv;
    var t := StateSyncTrack(order, pins.Keys);
    StepKeepsInv(s, Call(t));
    PendingWorkInvariant(Add(s, t), acts);
  }

  /** Whatever happened before: a repair, and then a StateSync in which nothing fails, leave exactly
      the CIDs of the state tracked, each Remote, or Pinned and held by the daemon; and the daemon
      holds no other CID that was tracked, unless it was to be unpinned from a direct pin. */
  lemma RepairThenSync(s: State, crowd: multiset<Thread>, now: Time, acts: seq<Action>,
                       pins: map<Cid, CidArg>, order: seq<CidArg>, more: seq<Action>)
    requires Inv(s) && Quiescent(s) && RepairRun(s, crowd, now, acts)
    requires SyncRun(Calm(Repaired(s, crowd, now, acts)), pins, order, more)
    ensures var s' := Synchronised(Calm(Repaired(s, crowd, now, acts)), pins, order, more);
      && s'.status.Keys == pins.Keys
      && (forall c :: c in pins ==>
            StatusOf(s'.status, c) == Remote || (StatusOf(s'.status, c) == Pinned && Holds(s'.daemon, c)))
      && (forall c :: c in s.status && c !in pins && Holds(s'.daemon, c) ==>
            s.status[c].status == UnpinError && IpfsStatus(s.daemon, c) == Direct)
  {
    hide RepairRun, SyncRun, Repaired, Synchronised, Inv;
    var s1 := Repaired(s, crowd, now, acts);
    var s' := Synchronised(Calm(s1), pins, order, more);
    RepairEntry(s, crowd, now, acts, "");
    RepairQuiescent(s, crowd, now, acts);
    CalmInv(s1);
    RepairConverges(s, crowd, now, acts);
    forall c
      ensures c in s'.status <==> c in pins
      ensures c in pins ==>
        StatusOf(s'.status, c) == Remote || (StatusOf(s'.status, c) == Pinned && Holds(s'.daemon, c))
      ensures c in s.status && c !in pins && Holds(s'.daemon, c) ==>
        s.status[c].status == UnpinError && IpfsStatus(s.daemon, c) == Direct
    {
      SyncEntry(Calm(s1), pins, order, more, c);
      RepairEntry(s, crowd, now, acts, c);
    }
  }

  lemma RepairQuiescent(s: State, crowd: multiset<Thread>, now: Time, acts: seq<Action>)
    requires RepairRun(s, crowd, now, acts)
    ensures Quiescent(Repaired(s, crowd, now, acts))
  {
    hide IsRun, Exec;
  }

  /** In the other order the state's CIDs are all tracked if and only if none of them was in
      UnpinError: StateSync keeps such an entry, and Recover then unpins and drops it. */
  lemma SyncThenRepair(s: State, pins: map<Cid, CidArg>, order: seq<CidArg>, more: seq<Action>,
                       crowd: multiset<Thread>, now: Time, acts: seq<Action>)
    requires Inv(s) && Quiescent(s) && SyncRun(s, pins, order, more)
    requires RepairRun(Synchronised(s, pins, order, more), crowd, now, acts)
    ensures var s' := Repaired(Synchronised(s, pins, order, more), crowd, now, acts);
      && s'.status.Keys <= pins.Keys
      && (s'.status.Keys == pins.Keys <==>
            forall c :: c in pins && c in s.status ==> s.status[c].status != UnpinError)
  {
    hide RepairRun, SyncRun, Repaired, Synchronised, Inv;
    var s1 := Synchronised(s, pins, order, more);
    var s' := Repaired(s1, crowd, now, acts);
    SyncKeepsInv(s, pins, order, more);
    RepairConverges(s1, crowd, now, acts);
    forall c
      ensures c in s'.status <==> c in pins && (c in s.status ==> s.status[c].status != UnpinError)
    {
      SyncEntry(s, pins, order, more, c);
    }
  }
}
