/** When the tracker's Pinned can be trusted: exactly as long as operations on a CID do not overlap. */
module Agreement {
  import opened Types
  import opened TrackerMap
  import opened TrackerMachine
  import opened Settling

  // ---- one operation at a time ------------------------------------------------------------------

  /** A call that concerns `c` is made while nothing else does, and listings are truthful. */
  ghost predicate Orderly(s: State, a: Action, c: Cid) {
    match a
    case Call(t) => Quiet(t, c) || (Idle(s, c) && Snapshot(t, c))
    case Run(t, env) => Honest(s, t, env, c)
    case _ => true
  }

  /** A StateSync works on one listing of the state. */
  ghost predicate Snapshot(t: Thread, c: Cid) {
    t.StateSyncTrack? ==> DistinctCids(t.args) && (c in t.pins || NotQueued(t.args, c))
  }

  ghost predicate OneAtATime(s: State, acts: seq<Action>, c: Cid)
    requires IsRun(s, acts)
    decreases |acts|
  {
    acts == [] || (Orderly(s, acts[0], c) && OneAtATime(Step(s, acts[0]), acts[1..], c))
  }

  lemma CallStarts(s: State, stage: Stage, t: Thread, c: Cid)
    requires At(s, Alone(c), stage) && Idle(s, c) && IsCall(s.self, t) && !Quiet(t, c) && Snapshot(t, c)
    ensures At(Add(s, t), Alone(c), Running(t))
  {
    IdleIsSettled(s, Alone(c), stage);
    assert Add(s, t).threads - multiset{t} == s.threads;
  }

  lemma OrderlyStep(s: State, stage: Stage, a: Action, c: Cid) returns (stage': Stage)
    requires At(s, Alone(c), stage) && Enabled(s, a) && Orderly(s, a, c)
    ensures At(Step(s, a), Alone(c), stage')
  {
    hide At, Quiet, Idle, Snapshot, Honest, Fire;
    if a.Call? && !Quiet(a.call, c) {
      CallStarts(s, stage, a.call, c);
      stage' := Running(a.call);
    } else {
      stage' := Advance(s, Alone(c), stage, a);
    }
  }

  lemma {:induction false} FollowAll(s: State, stage: Stage, acts: seq<Action>, c: Cid) returns (stage': Stage)
    requires At(s, Alone(c), stage) && IsRun(s, acts) && OneAtATime(s, acts, c)
    ensures At(Exec(s, acts), Alone(c), stage')
    decreases |acts|
  {
    hide At, Enabled, Step, Orderly;
    stage' := stage;
    if acts != [] {
      stage' := OrderlyStep(s, stage, acts[0], c);
      stage' := FollowAll(Step(s, acts[0]), stage', acts[1..], c);
    }
  }

  /** In any run, with failures and full queues, in which every call about `c` starts when nothing is
      in progress for `c`: whenever `c` is idle, Pinned means pinned. */
  lemma AgreementWhenIdle(s: State, acts: seq<Action>, c: Cid)
    requires Idle(s, c) && Agrees(s, c) && IsRun(s, acts) && OneAtATime(s, acts, c)
    ensures Idle(Exec(s, acts), c) ==> Agrees(Exec(s, acts), c)
  {
    var stage := FollowAll(s, Settled, acts, c);
    if Idle(Exec(s, acts), c) {
      IdleIsSettled(Exec(s, acts), Alone(c), stage);
    }
  }
}
