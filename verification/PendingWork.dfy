/** Transient statuses are always backed by pending work, and pending work always drains. */
module PendingWork {
  import opened Types
  import opened TrackerMap
  import opened TrackerMachine
  import opened Weights

  /** A pin of `c` is being enqueued or is in flight. */
  predicate PinWork(t: Thread, c: Cid) {
    (t.TrackEnqueue? || t.TrackFull? || t.PinSet? || t.PinCall? || t.PinReturn?) && t.arg.cid == c
  }

  predicate UnpinWork(t: Thread, c: Cid) {
    || ((t.UntrackEnqueue? || t.UntrackFull?) && t.c == c)
    || ((t.UnpinCall? || t.UnpinReturn?) && t.arg.cid == c)
  }

  ghost predicate PinPending(s: State, c: Cid) {
    (exists t :: t in s.threads && PinWork(t, c)) || (exists a :: a in s.pinCh && a.cid == c)
  }

  ghost predicate UnpinPending(s: State, c: Cid) {
    (exists t :: t in s.threads && UnpinWork(t, c)) || (exists a :: a in s.unpinCh && a.cid == c)
  }

  predicate Stable(s: TrackerStatus) {
    s == Pinned || s == PinError || s == UnpinError || s == Remote
  }

  ghost predicate EntryOk(s: State, c: Cid) {
    c in s.status ==>
      && WellFormed(s.status[c], s.self, c)
      && (s.status[c].status == Pinning ==> PinPending(s, c))
      && (s.status[c].status == Unpinning ==> UnpinPending(s, c))
  }

  /** Operations run by a worker, counted: the workers call the daemon one at a time. */
  function PinWorker(t: Thread): nat {
    if (t.PinSet? || t.PinCall? || t.PinReturn?) && t.after == FreeWorker then 1 else 0
  }

  function UnpinWorker(t: Thread): nat {
    if (t.UnpinCall? || t.UnpinReturn?) && t.after == FreeWorker then 1 else 0
  }

  ghost predicate WorkersOk(s: State) {
    && Weight(s.threads, PinWorker) == (if s.pinBusy then 1 else 0)
    && Weight(s.threads, UnpinWorker) == (if s.unpinBusy then 1 else 0)
  }

  /** A pending decision of syncStatus writes Pinned or Unpinned, never a transient status. */
  predicate ThreadOk(t: Thread) {
    match t
    case SyncAct(_, d) => FinalDecision(d)
    case SyncAllAct(_, d, _, _) => FinalDecision(d)
    case _ => true
  }

  predicate FinalDecision(d: Decision) {
    d.Write? ==> d.status == Pinned || d.status == Unpinned
  }

  ghost predicate Inv(s: State) {
    && (forall c :: EntryOk(s, c))
    && (forall t :: t in s.threads ==> ThreadOk(t))
    && WorkersOk(s)
  }

  lemma BlankInv(s: State)
    requires Blank(s)
    ensures Inv(s)
  {
  }

  // ---- the invariant is inductive -----------------------------------------------------------

  /** A goroutine that did not run is still there, and so is the continuation of the one that ran. */
  lemma FireThreads(s: State, t: Thread, env: Env)
    requires t in s.threads
    ensures forall w :: w in s.threads && w != t ==> w in Fire(s, t, env).threads
    ensures Next(s, t, env).Becomes? ==> Next(s, t, env).t in Fire(s, t, env).threads
    ensures forall a :: a in s.pinCh ==> a in Fire(s, t, env).pinCh
    ensures forall a :: a in s.unpinCh ==> a in Fire(s, t, env).unpinCh
  {
    hide Next, ApplyUpdate, UpdateOf, DaemonAfter, Trouble;
  }

  /** Where a transient status can come from. */
  lemma TransientOrigin(s: State, t: Thread, env: Env, c: Cid)
    requires t in s.threads && ThreadOk(t)
    ensures var st := StatusOf(Fire(s, t, env).status, c);
      && (st == Pinning ==>
            || (t.TrackSet? && t.arg.cid == c)
            || (t.PinSet? && t.arg.cid == c)
            || (StatusOf(s.status, c) == Pinning && !t.TrackFull? && !t.PinReturn?)
            || (StatusOf(s.status, c) == Pinning && !PinWork(t, c)))
      && (st == Unpinning ==>
            || (t.UntrackSet? && t.c == c)
            || (StatusOf(s.status, c) == Unpinning && !t.UntrackFull? && !t.UnpinReturn?)
            || (StatusOf(s.status, c) == Unpinning && !UnpinWork(t, c)))
  {
  }

  lemma PinPendingKept(s: State, t: Thread, env: Env, c: Cid)
    requires t in s.threads && ThreadOk(t)
    requires StatusOf(s.status, c) == Pinning ==> PinPending(s, c)
    requires StatusOf(Fire(s, t, env).status, c) == Pinning
    ensures PinPending(Fire(s, t, env), c)
  {
    TransientOrigin(s, t, env, c);
    FireThreads(s, t, env);
    var s' := Fire(s, t, env);
    if PinWork(t, c) || (t.TrackSet? && t.arg.cid == c) {
      if t.TrackEnqueue? && |s.pinCh| < s.capacity {
        assert t.arg in s'.pinCh;
      } else {
        assert PinWork(Next(s, t, env).t, c);
      }
    } else if w :| w in s.threads && PinWork(w, c) {
      assert w in s'.threads;
    } else {
      var a :| a in s.pinCh && a.cid == c;
      assert a in s'.pinCh;
    }
  }

  lemma UnpinPendingKept(s: State, t: Thread, env: Env, c: Cid)
    requires t in s.threads && ThreadOk(t)
    requires StatusOf(s.status, c) == Unpinning ==> UnpinPending(s, c)
    requires StatusOf(Fire(s, t, env).status, c) == Unpinning
    ensures UnpinPending(Fire(s, t, env), c)
  {
    TransientOrigin(s, t, env, c);
    FireThreads(s, t, env);
    var s' := Fire(s, t, env);
    if UnpinWork(t, c) || (t.UntrackSet? && t.c == c) {
      if t.UntrackEnqueue? && |s.unpinCh| < s.capacity {
        assert ArgFor(t.c) in s'.unpinCh;
      } else {
        assert UnpinWork(Next(s, t, env).t, c);
      }
    } else if w :| w in s.threads && UnpinWork(w, c) {
      assert w in s'.threads;
    } else {
      var a :| a in s.unpinCh && a.cid == c;
      assert a in s'.unpinCh;
    }
  }

  predicate WellFormed(p: PinInfo, self: PeerId, c: Cid) {
    p.cid == c && p.peer == self && (Stable(p.status) || p.status == Pinning || p.status == Unpinning)
  }

  lemma FireKeepsWellFormed(s: State, t: Thread, env: Env, c: Cid)
    requires t in s.threads && ThreadOk(t)
    requires c in s.status ==> WellFormed(s.status[c], s.self, c)
    ensures var s' := Fire(s, t, env); c in s'.status ==> WellFormed(s'.status[c], s.self, c)
  {
    hide Next, DaemonAfter, Trouble;
  }

  lemma FireKeepsEntries(s: State, t: Thread, env: Env, c: Cid)
    requires t in s.threads && ThreadOk(t)
    requires EntryOk(s, c)
    ensures EntryOk(Fire(s, t, env), c)
  {
    FireKeepsWellFormed(s, t, env, c);
    if StatusOf(Fire(s, t, env).status, c) == Pinning {
      PinPendingKept(s, t, env, c);
    } else if StatusOf(Fire(s, t, env).status, c) == Unpinning {
      UnpinPendingKept(s, t, env, c);
    }
  }

  lemma NextPinWorkers(s: State, t: Thread, env: Env)
    ensures ContinuationWeight(Next(s, t, env), PinWorker)
         == PinWorker(t) - (if t.PinReturn? && t.after == FreeWorker then 1 else 0)
  {
  }

  lemma NextUnpinWorkers(s: State, t: Thread, env: Env)
    ensures ContinuationWeight(Next(s, t, env), UnpinWorker)
         == UnpinWorker(t) - (if t.UnpinReturn? && t.after == FreeWorker then 1 else 0)
  {
  }

  lemma FireKeepsWorkers(s: State, t: Thread, env: Env)
    requires t in s.threads && WorkersOk(s)
    ensures WorkersOk(Fire(s, t, env))
  {
    FireWeight(s, t, env, PinWorker);
    FireWeight(s, t, env, UnpinWorker);
    WeightRemove(s.threads, t, PinWorker);
    WeightRemove(s.threads, t, UnpinWorker);
    NextPinWorkers(s, t, env);
    NextUnpinWorkers(s, t, env);
  }

  lemma FireKeepsThreadsOk(s: State, t: Thread, env: Env, w: Thread)
    requires t in s.threads && w in Fire(s, t, env).threads
    requires w in s.threads ==> ThreadOk(w)
    ensures ThreadOk(w)
  {
    hide ApplyUpdate, DaemonAfter, Trouble, UpdateOf, Next, ThreadOk;
    NextThreadOk(s, t, env);
    if w !in s.threads {
      assert w in Next(s, t, env).Threads();
    }
  }

  lemma DecisionIsFinal(p: PinInfo, pinned: bool, now: Time)
    ensures FinalDecision(SyncDecision(p, pinned, now))
  {
  }

  lemma NextThreadOk(s: State, t: Thread, env: Env)
    ensures forall w :: w in Next(s, t, env).Threads() ==> ThreadOk(w)
  {
    hide SyncDecision, FinalDecision, Lookup, StatusOf;
    forall p, pinned { DecisionIsFinal(p, pinned, env.now); }
  }

  lemma TakeKeepsEntries(s: State, a: Action, c: Cid)
    requires Enabled(s, a) && !a.Run?
    requires EntryOk(s, c)
    ensures EntryOk(Step(s, a), c)
  {
    var s' := Step(s, a);
    assert forall w :: w in s.threads ==> w in s'.threads;
    if a.TakePin? {
      assert s.pinCh == [s.pinCh[0]] + s'.pinCh;
      assert PinSet(s.pinCh[0], FreeWorker) in s'.threads;
      assert PinWork(PinSet(s.pinCh[0], FreeWorker), s.pinCh[0].cid);
    } else if a.TakeUnpin? {
      assert s.unpinCh == [s.unpinCh[0]] + s'.unpinCh;
      assert UnpinCall(s.unpinCh[0], FreeWorker) in s'.threads;
      assert UnpinWork(UnpinCall(s.unpinCh[0], FreeWorker), s.unpinCh[0].cid);
    }
  }

  /** Only receiving an item occupies a worker. */
  lemma WorkersTaken(s: State, a: Action, t: Thread)
    requires Enabled(s, a) && !a.Run?
    requires a.TakePin? ==> t == PinSet(s.pinCh[0], FreeWorker)
    requires a.TakeUnpin? ==> t == UnpinCall(s.unpinCh[0], FreeWorker)
    requires a.Call? ==> t == a.call
    ensures PinWorker(t) == (if a.TakePin? then 1 else 0) && UnpinWorker(t) == (if a.TakeUnpin? then 1 else 0)
    ensures Step(s, a).pinBusy == (s.pinBusy || a.TakePin?) && Step(s, a).unpinBusy == (s.unpinBusy || a.TakeUnpin?)
    ensures a.TakePin? ==> !s.pinBusy
    ensures a.TakeUnpin? ==> !s.unpinBusy
  {
    hide Fire;
  }

  lemma TakeKeepsWorkers(s: State, a: Action, t: Thread)
    requires Enabled(s, a) && !a.Run? && WorkersOk(s)
    requires Step(s, a).threads == s.threads + multiset{t}
    requires a.TakePin? ==> t == PinSet(s.pinCh[0], FreeWorker)
    requires a.TakeUnpin? ==> t == UnpinCall(s.unpinCh[0], FreeWorker)
    requires a.Call? ==> t == a.call
    ensures WorkersOk(Step(s, a))
  {
    hide Enabled, Step, Weight, PinWorker, UnpinWorker;
    WorkersTaken(s, a, t);
    WeightAdd(s.threads, t, PinWorker);
    WeightAdd(s.threads, t, UnpinWorker);
  }

  lemma StepKeepsInv(s: State, a: Action)
    requires Inv(s) && Enabled(s, a)
    ensures Inv(Step(s, a))
  {
    if a.Run? {
      forall c { FireKeepsEntries(s, a.t, a.env, c); }
      forall w | w in Step(s, a).threads ensures ThreadOk(w) { FireKeepsThreadsOk(s, a.t, a.env, w); }
      FireKeepsWorkers(s, a.t, a.env);
    } else {
      forall c { TakeKeepsEntries(s, a, c); }
      TakeKeepsWorkers(s, a, match a
        case TakePin => PinSet(s.pinCh[0], FreeWorker)
        case TakeUnpin => UnpinCall(s.unpinCh[0], FreeWorker)
        case Call(t) => t);
    }
  }

  /** In every reachable state each Pinning (Unpinning) entry has a pin (unpin) of that CID being
      enqueued, queued or in flight, whatever the interleaving, the failures and the capacity. */
  lemma {:induction false} PendingWorkInvariant(s: State, acts: seq<Action>)
    requires Inv(s) && IsRun(s, acts)
    ensures Inv(Exec(s, acts))
    decreases |acts|
  {
    if acts != [] {
      StepKeepsInv(s, acts[0]);
      PendingWorkInvariant(Step(s, acts[0]), acts[1..]);
    }
  }

  /** The queues never hold more than their capacity. */
  lemma {:induction false} QueuesBounded(s: State, acts: seq<Action>)
    requires |s.pinCh| <= s.capacity && |s.unpinCh| <= s.capacity && IsRun(s, acts)
    ensures var s' := Exec(s, acts);
      s'.capacity == s.capacity && |s'.pinCh| <= s.capacity && |s'.unpinCh| <= s.capacity
    decreases |acts|
  {
    hide Next, ApplyUpdate, UpdateOf, DaemonAfter, Trouble;
    if acts != [] {
      QueuesBounded(Step(s, acts[0]), acts[1..]);
    }
  }

  lemma QuiescentIsStable(s: State, acts: seq<Action>)
    requires Blank(s) && IsRun(s, acts) && Quiescent(Exec(s, acts))
    ensures forall c :: c in Exec(s, acts).status ==> Stable(Exec(s, acts).status[c].status)
  {
    BlankInv(s);
    PendingWorkInvariant(s, acts);
    var s' := Exec(s, acts);
    forall c | c in s'.status
      ensures Stable(s'.status[c].status)
    {
      assert EntryOk(s', c);
    }
  }

  /** Each worker has at most one operation in flight. */
  lemma OneByOne(s: State, acts: seq<Action>, t: Thread, u: Thread)
    requires Blank(s) && IsRun(s, acts)
    requires multiset{t, u} <= Exec(s, acts).threads
    ensures PinWorker(t) + PinWorker(u) <= 1
    ensures UnpinWorker(t) + UnpinWorker(u) <= 1
  {
    BlankInv(s);
    PendingWorkInvariant(s, acts);
    var ts := Exec(s, acts).threads;
    assert u in ts - multiset{t};
    WeightRemove(ts, t, PinWorker);
    WeightRemove(ts - multiset{t}, u, PinWorker);
    WeightRemove(ts, t, UnpinWorker);
    WeightRemove(ts - multiset{t}, u, UnpinWorker);
  }
}
