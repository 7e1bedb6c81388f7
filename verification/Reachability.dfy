/** What the tracker can reach on its own, without new calls. */
module Reachability {
  import opened Types
  import opened TrackerMap
  import opened TrackerMachine

  ghost predicate NoCalls(acts: seq<Action>) {
    forall i :: 0 <= i < |acts| ==> !acts[i].Call?
  }

  ghost predicate Reaches(s: State, s': State) {
    exists acts :: NoCalls(acts) && IsRun(s, acts) && Exec(s, acts) == s'
  }

  lemma ReachesSelf(s: State)
    ensures Reaches(s, s)
  {
    assert NoCalls([]) && IsRun(s, []) && Exec(s, []) == s;
  }

  lemma StepThenReaches(s: State, a: Action, s': State)
    requires !a.Call? && Enabled(s, a) && Reaches(Step(s, a), s')
    ensures Reaches(s, s')
  {
    hide Enabled, Step;
    var rest :| NoCalls(rest) && IsRun(Step(s, a), rest) && Exec(Step(s, a), rest) == s';
    var acts := [a] + rest;
    assert acts[0] == a && acts[1..] == rest;
    assert forall i :: 1 <= i < |acts| ==> acts[i] == rest[i - 1];
    assert IsRun(s, acts) && Exec(s, acts) == s';
  }

  lemma {:induction false} RunThenReaches(s: State, acts: seq<Action>, s': State)
    requires NoCalls(acts) && IsRun(s, acts) && Reaches(Exec(s, acts), s')
    ensures Reaches(s, s')
    decreases |acts|
  {
    hide Enabled, Step, Reaches;
    if acts != [] {
      assert forall i :: 0 <= i < |acts[1..]| ==> acts[1..][i] == acts[i + 1];
      RunThenReaches(Step(s, acts[0]), acts[1..], s');
      StepThenReaches(s, acts[0], s');
    }
  }

  lemma ReachesOn(s: State, s1: State, s2: State)
    requires Reaches(s, s1) && Reaches(s1, s2)
    ensures Reaches(s, s2)
  {
    hide Enabled, Step, IsRun, Exec;
    var acts :| NoCalls(acts) && IsRun(s, acts) && Exec(s, acts) == s1;
    RunThenReaches(s, acts, s2);
  }

  // ---- next to other goroutines -----------------------------------------------------------------

  function Beside(s: State, ts: multiset<Thread>): State {
    s.(threads := s.threads + ts)
  }

  lemma StepBeside(s: State, a: Action, ts: multiset<Thread>)
    requires !a.Call? && Enabled(s, a)
    ensures Enabled(Beside(s, ts), a) && Step(Beside(s, ts), a) == Beside(Step(s, a), ts)
  {
    hide ApplyUpdate, UpdateOf, DaemonAfter;
    match a
    case Run(t, env) =>
      SameStep(s, ts, t, env);
      var k := Next(s, t, env);
      assert s.threads + ts - multiset{t} + k.Threads() == s.threads - multiset{t} + k.Threads() + ts;
    case TakePin =>
      var t := PinSet(s.pinCh[0], FreeWorker);
      assert s.threads + ts + multiset{t} == s.threads + multiset{t} + ts;
    case TakeUnpin =>
      var t := UnpinCall(s.unpinCh[0], FreeWorker);
      assert s.threads + ts + multiset{t} == s.threads + multiset{t} + ts;
  }

  /** A goroutine does not see the others. */
  lemma SameStep(s: State, ts: multiset<Thread>, t: Thread, env: Env)
    ensures Next(Beside(s, ts), t, env) == Next(s, t, env)
    ensures Trouble(Beside(s, ts), t, env) == Trouble(s, t, env)
  {
  }

  lemma {:induction false} RunBeside(s: State, acts: seq<Action>, ts: multiset<Thread>)
    requires NoCalls(acts) && IsRun(s, acts)
    ensures IsRun(Beside(s, ts), acts) && Exec(Beside(s, ts), acts) == Beside(Exec(s, acts), ts)
    decreases |acts|
  {
    hide Enabled, Step, Beside;
    if acts != [] {
      assert forall i :: 0 <= i < |acts[1..]| ==> acts[1..][i] == acts[i + 1];
      StepBeside(s, acts[0], ts);
      RunBeside(Step(s, acts[0]), acts[1..], ts);
    }
  }

  lemma ReachesBeside(s: State, s': State, ts: multiset<Thread>)
    requires Reaches(s, s')
    ensures Reaches(Beside(s, ts), Beside(s', ts))
  {
    hide IsRun, Exec, Beside;
    var acts :| NoCalls(acts) && IsRun(s, acts) && Exec(s, acts) == s';
    RunBeside(s, acts, ts);
  }
}
