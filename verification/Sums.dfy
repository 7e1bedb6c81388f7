/** Sums over finite sets of peers. */
module Sums {
  import opened Types

  ghost function Sum(ps: set<PeerId>, f: PeerId -> int): int
    decreases |ps|
  {
    if ps == {} then 0
    else
      var p :| p in ps;
      f(p) + Sum(ps - {p}, f)
  }

  lemma {:induction false} SumRemove(ps: set<PeerId>, p: PeerId, f: PeerId -> int)
    requires p in ps
    ensures Sum(ps, f) == f(p) + Sum(ps - {p}, f)
    decreases |ps|
  {
    var q :| q in ps && Sum(ps, f) == f(q) + Sum(ps - {q}, f);
    if q != p {
      SumRemove(ps - {q}, p, f);
      SumRemove(ps - {p}, q, f);
      assert ps - {q} - {p} == ps - {p} - {q};
    }
  }

  lemma {:induction false} SumSplit(ps: set<PeerId>, qs: set<PeerId>, f: PeerId -> int)
    requires ps !! qs
    ensures Sum(ps + qs, f) == Sum(ps, f) + Sum(qs, f)
    decreases |ps|
  {
    if ps == {} {
      assert ps + qs == qs;
    } else {
      var p :| p in ps;
      SumRemove(ps, p, f);
      SumRemove(ps + qs, p, f);
      SumSplit(ps - {p}, qs, f);
      assert ps + qs - {p} == ps - {p} + qs;
    }
  }

  lemma OneTimesMore(k: nat, n: int)
    ensures (k + 1) * n == k * n + n
  {
  }

  lemma {:induction false} SumAtLeast(ps: set<PeerId>, f: PeerId -> int, n: int)
    requires forall p :: p in ps ==> f(p) >= n
    ensures Sum(ps, f) >= |ps| * n
    decreases |ps|
  {
    if ps == {} {
      assert Sum(ps, f) == 0;
    } else {
      hide Sum;
      var p :| p in ps;
      SumRemove(ps, p, f);
      SumAtLeast(ps - {p}, f, n);
      OneTimesMore(|ps - {p}|, n);
      assert |ps| == |ps - {p}| + 1;
    }
  }

  lemma {:induction false} SumAtMost(ps: set<PeerId>, f: PeerId -> int, n: int)
    requires forall p :: p in ps ==> f(p) <= n
    ensures Sum(ps, f) <= |ps| * n
    decreases |ps|
  {
    if ps == {} {
      assert Sum(ps, f) == 0;
    } else {
      hide Sum;
      var p :| p in ps;
      SumRemove(ps, p, f);
      SumAtMost(ps - {p}, f, n);
      OneTimesMore(|ps - {p}|, n);
      assert |ps| == |ps - {p}| + 1;
    }
  }

  /** Adding one to the members of `chosen` adds their number. */
  lemma {:induction false} SumIncrement(ps: set<PeerId>, chosen: set<PeerId>, f: PeerId -> int, g: PeerId -> int)
    requires chosen <= ps
    requires forall p :: p in ps ==> g(p) == f(p) + if p in chosen then 1 else 0
    ensures Sum(ps, g) == Sum(ps, f) + |chosen|
    decreases |ps|
  {
    if ps != {} {
      var p :| p in ps;
      SumRemove(ps, p, f);
      SumRemove(ps, p, g);
      SumIncrement(ps - {p}, chosen - {p}, f, g);
    }
  }
}
