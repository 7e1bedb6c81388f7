/** What every answer of allocate guarantees. */
module Optimality {
  import opened Types
  import opened Allocation
  import opened Sums

  /** No other choice of as many eligible peers carries less load in total. */
  lemma MinimalTotal(v: View, c: Cid, peers: seq<PeerId>, others: set<PeerId>)
    requires Chosen(v, c, peers) && others <= Eligible(v, c) && |others| == Needed(v, c)
    ensures Sum(ToSet(peers), p => Load(v, p)) <= Sum(others, p => Load(v, p))
  {
    hide Sum, Load, Needed, Eligible;
    var f := (p: PeerId) => Load(v, p);
    var mine := ToSet(peers);
    var left, right := mine - others, others - mine;
    DistinctSize(peers);
    assert |left| == |right| by {
      assert |mine| == |left| + |mine * others| && |others| == |right| + |mine * others| by {
        assert left + mine * others == mine && right + mine * others == others;
      }
    }
    SumSplit(left, mine * others, f);
    SumSplit(right, mine * others, f);
    assert left + mine * others == mine && right + mine * others == others;
    LighterSide(v, left, right, f);
    SameSum(v, mine, f);
    SameSum(v, others, f);
  }

  lemma LighterSide(v: View, left: set<PeerId>, right: set<PeerId>, f: PeerId -> int)
    requires forall p :: f(p) == Load(v, p)
    requires forall p, q :: p in left && q in right ==> Load(v, p) <= Load(v, q)
    requires |left| == |right|
    ensures Sum(left, f) <= Sum(right, f)
  {
    hide Sum, Load;
    if left != {} {
      var top := Heaviest(v, left);
      SumAtMost(left, f, Load(v, top));
      SumAtLeast(right, f, Load(v, top));
    } else {
      assert right == {};
    }
  }

  lemma {:induction false} Heaviest(v: View, ps: set<PeerId>) returns (top: PeerId)
    requires ps != {}
    ensures top in ps && forall p :: p in ps ==> Load(v, p) <= Load(v, top)
    decreases |ps|
  {
    top :| top in ps;
    if ps != {top} {
      var rest := Heaviest(v, ps - {top});
      if Load(v, rest) > Load(v, top) {
        top := rest;
      }
    }
  }

  lemma {:induction false} SameSum(v: View, ps: set<PeerId>, f: PeerId -> int)
    requires forall p :: f(p) == Load(v, p)
    ensures Sum(ps, f) == Sum(ps, p => Load(v, p))
    decreases |ps|
  {
    if ps != {} {
      var p :| p in ps;
      SumRemove(ps, p, f);
      SumRemove(ps, p, p => Load(v, p));
      SameSum(v, ps - {p}, f);
    }
  }

  /** New peers were not allocated before, are current cluster peers with a metric that is neither
      invalid nor expired, and make exactly `factor` together with the live holders. */
  lemma FactorReached(v: View, c: Cid, peers: seq<PeerId>)
    requires Chosen(v, c, peers)
    ensures ToSet(peers) !! ToSet(Current(v, c))
    ensures forall p :: p in peers ==> p in v.peers && !LastOf(Received(v), p).Discard(v.filteredAt)
    ensures |Holders(v, c) + ToSet(peers)| == v.factor
  {
    DistinctSize(peers);
    assert forall p :: p in peers ==> p in ToSet(peers) && p in Eligible(v, c);
    assert Holders(v, c) !! ToSet(peers);
    assert |Holders(v, c) + ToSet(peers)| == |Holders(v, c)| + |ToSet(peers)|;
  }

  /** Pin commits the new peers only (cluster.go:668): the committed allocations have `factor`
      members if and only if no current holder was live. */
  lemma CommittedSize(v: View, c: Cid, peers: seq<PeerId>)
    requires Chosen(v, c, peers)
    ensures |ToSet(peers)| == v.factor <==> Holders(v, c) == {}
  {
    DistinctSize(peers);
  }
}
