/** Without new calls every run of the tracker ends, and it ends with nothing left to do. */
module Drain {
  import opened Types
  import opened TrackerMap
  import opened TrackerMachine
  import opened Weights
  import opened PendingWork

  /** Bounds the steps a goroutine still has to cause, once it has read the maps it iterates over. */
  function Rank(t: Thread): nat {
    match t
    case TrackSet(_) | UntrackSet(_) => 6
    case TrackEnqueue(_) | UntrackEnqueue(_) => 5
    case TrackGet(_) | RecoverGet(_) => 4
    case PinSet(_, _) | UnpinCall(_, _) | SyncCall(_) => 3
    case PinCall(_, _) | UnpinReturn(_, _, _) | SyncGet(_, _) | SyncAllCall => 2
    case SyncAllNext(cids, _) => 2 * |cids| + 1
    case SyncAllAct(_, _, cids, _) => 2 * |cids| + 2
    case StateSyncTrack(args, _) => 7 * |args| + 2
    case StateSyncUntrack(cids, _) => 7 * |cids| + 1
    case _ => 1
  }

  /** Goroutines that have yet to take a snapshot of the status map. */
  function Early(t: Thread): nat {
    if t.SyncAllCall? || t.SyncAllList? || t.StateSyncTrack? || t.StateSyncList? then 1 else 0
  }

  ghost function Work(s: State): nat {
    Weight(s.threads, Rank) + 4 * |s.pinCh| + 4 * |s.unpinCh|
  }

  ghost function Snapshots(s: State): nat {
    Weight(s.threads, Early)
  }

  lemma NextIsSmaller(s: State, t: Thread, env: Env)
    ensures var k := Next(s, t, env);
      var queued := if (t.TrackEnqueue? || t.UntrackEnqueue?) && k.Ends? then 4 else 0;
      ContinuationWeight(k, Early) < Early(t)
      || (ContinuationWeight(k, Early) == Early(t) && ContinuationWeight(k, Rank) + queued < Rank(t))
  {
  }

  lemma FireQueues(s: State, t: Thread, env: Env)
    requires t in s.threads
    ensures var s' := Fire(s, t, env);
      |s'.pinCh| + |s'.unpinCh| == |s.pinCh| + |s.unpinCh|
        + (if (t.TrackEnqueue? || t.UntrackEnqueue?) && Next(s, t, env).Ends? then 1 else 0)
  {
    hide ApplyUpdate, DaemonAfter, Trouble, UpdateOf;
  }

  lemma FireIsSmaller(s: State, t: Thread, env: Env)
    requires t in s.threads
    ensures var s' := Fire(s, t, env);
      Snapshots(s') < Snapshots(s) || (Snapshots(s') == Snapshots(s) && Work(s') < Work(s))
  {
    hide Fire, Next, Weight;
    FireQueues(s, t, env);
    FireWeight(s, t, env, Early);
    FireWeight(s, t, env, Rank);
    WeightRemove(s.threads, t, Early);
    WeightRemove(s.threads, t, Rank);
    NextIsSmaller(s, t, env);
  }

  lemma StepIsSmaller(s: State, a: Action)
    requires Enabled(s, a) && !a.Call?
    ensures var s' := Step(s, a);
      Snapshots(s') < Snapshots(s) || (Snapshots(s') == Snapshots(s) && Work(s') < Work(s))
  {
    hide Fire, Next, Weight;
    match a
    case Run(t, env) => FireIsSmaller(s, t, env);
    case TakePin =>
      WeightAdd(s.threads, PinSet(s.pinCh[0], FreeWorker), Early);
      WeightAdd(s.threads, PinSet(s.pinCh[0], FreeWorker), Rank);
    case TakeUnpin =>
      WeightAdd(s.threads, UnpinCall(s.unpinCh[0], FreeWorker), Early);
      WeightAdd(s.threads, UnpinCall(s.unpinCh[0], FreeWorker), Rank);
  }

  ghost predicate CanMove(s: State) {
    exists a: Action :: !a.Call? && Enabled(s, a)
  }

  ghost predicate Moves(s: State, s': State) {
    exists a: Action :: !a.Call? && Enabled(s, a) && s' == Step(s, a)
  }

  /** The tracker is never stuck: while something is left to do, some step is possible. */
  lemma Progress(s: State)
    requires Inv(s) && !Quiescent(s)
    ensures CanMove(s)
  {
    var a := CalmStep(s);
  }

  /** Some continuation without failures and without new calls reaches quiescence. */
  lemma {:induction false} CanDrain(s: State) returns (acts: seq<Action>)
    requires Inv(s)
    ensures IsRun(s, acts) && Quiescent(Exec(s, acts))
    ensures forall i :: 0 <= i < |acts| ==> !acts[i].Call? && (acts[i].Run? ==> acts[i].env.out.Done?)
    decreases Snapshots(s), Work(s)
  {
    hide Inv, Snapshots, Work, Enabled, Step;
    acts := [];
    if !Quiescent(s) {
      var a := CalmStep(s);
      StepKeepsInv(s, a);
      StepIsSmaller(s, a);
      var rest := CanDrain(Step(s, a));
      acts := [a] + rest;
      assert acts[0] == a && acts[1..] == rest;
      assert forall i :: 1 <= i < |acts| ==> acts[i] == rest[i - 1];
    }
  }

  lemma CalmStep(s: State) returns (a: Action)
    requires Inv(s) && !Quiescent(s)
    ensures !a.Call? && Enabled(s, a) && (a.Run? ==> a.env.out.Done?)
  {
    if s.threads != multiset{} {
      var t :| t in s.threads;
      var order := EnumerationExists(s.status.Keys);
      a := Run(t, Env(Done, None, order, 0.0));
    } else {
      assert !s.pinBusy && !s.unpinBusy;
      a := if s.pinCh != [] then TakePin else TakeUnpin;
    }
  }

  /** The next state of a maximal run: one internal step, or none because none is possible. */
  ghost predicate Continues(run: nat -> State, i: nat) {
    Moves(run(i), run(i + 1)) || (!CanMove(run(i)) && run(i + 1) == run(i))
  }

  lemma MoveIsSmaller(s: State, s': State)
    requires Inv(s) && Moves(s, s')
    ensures Inv(s')
    ensures Snapshots(s') < Snapshots(s) || (Snapshots(s') == Snapshots(s) && Work(s') < Work(s))
  {
    var a: Action :| !a.Call? && Enabled(s, a) && s' == Step(s, a);
    StepKeepsInv(s, a);
    StepIsSmaller(s, a);
  }

  /** Any maximal run without new calls reaches quiescence, whatever its interleaving. */
  lemma {:induction false} EveryRunDrains(run: nat -> State, i: nat) returns (n: nat)
    requires Inv(run(i))
    requires forall j: nat :: j >= i ==> Continues(run, j)
    ensures n >= i && Quiescent(run(n))
    decreases Snapshots(run(i)), Work(run(i))
  {
    assert Continues(run, i);
    if Moves(run(i), run(i + 1)) {
      MoveIsSmaller(run(i), run(i + 1));
      n := EveryRunDrains(run, i + 1);
    } else {
      if !Quiescent(run(i)) {
        Progress(run(i));
      }
      n := i;
    }
  }
}
