/** Total weight of the goroutines in flight. */
module Weights {
  import opened TrackerMachine

  ghost function Weight(ts: multiset<Thread>, f: Thread -> nat): nat
    decreases |ts|
  {
    if ts == multiset{} then 0
    else
      var t :| t in ts;
      f(t) + Weight(ts - multiset{t}, f)
  }

  lemma {:induction false} WeightRemove(ts: multiset<Thread>, t: Thread, f: Thread -> nat)
    requires t in ts
    ensures Weight(ts, f) == f(t) + Weight(ts - multiset{t}, f)
    decreases |ts|
  {
    var u :| u in ts && Weight(ts, f) == f(u) + Weight(ts - multiset{u}, f);
    if u != t {
      WeightRemove(ts - multiset{u}, t, f);
      WeightRemove(ts - multiset{t}, u, f);
      assert ts - multiset{u} - multiset{t} == ts - multiset{t} - multiset{u};
    }
  }

  lemma WeightAdd(ts: multiset<Thread>, t: Thread, f: Thread -> nat)
    ensures Weight(ts + multiset{t}, f) == f(t) + Weight(ts, f)
  {
    WeightRemove(ts + multiset{t}, t, f);
    assert ts + multiset{t} - multiset{t} == ts;
  }

  ghost function ContinuationWeight(k: Continuation, f: Thread -> nat): nat {
    match k
    case Ends => 0
    case Becomes(t) => f(t)
    case Forks(t, u) => f(t) + f(u)
  }

  /** One step replaces the weight of `t` by that of the goroutines it turns into. */
  lemma FireWeight(s: State, t: Thread, env: Env, f: Thread -> nat)
    requires t in s.threads
    ensures Weight(Fire(s, t, env).threads, f)
         == Weight(s.threads, f) - f(t) + ContinuationWeight(Next(s, t, env), f)
  {
    WeightRemove(s.threads, t, f);
    ReplaceWeight(s.threads - multiset{t}, Next(s, t, env), f);
  }

  lemma ReplaceWeight(ts: multiset<Thread>, k: Continuation, f: Thread -> nat)
    ensures Weight(ts + k.Threads(), f) == Weight(ts, f) + ContinuationWeight(k, f)
  {
    match k
    case Ends =>
      assert ts + k.Threads() == ts;
    case Becomes(t) =>
      WeightAdd(ts, t, f);
    case Forks(t, u) =>
      WeightAdd(ts, t, f);
      WeightAdd(ts + multiset{t}, u, f);
      assert ts + k.Threads() == ts + multiset{t} + multiset{u};
  }
}
