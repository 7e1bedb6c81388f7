/** Whole runs of pins: numpin allocation keeps the cluster balanced. */
module LoadBalance {
  import opened Types
  import opened Allocation
  import opened Optimality
  import opened Sums
  import SharedState

  type PinMap = SharedState.PinMap

  /** The number of pins in the shared state that `p` is allocated. */
  function Share(pins: PinMap, p: PeerId): nat {
    |set c | c in pins && p in pins[c].allocations|
  }

  /** A cluster of `peers`; `base[p]` items are pinned at `p` outside of the shared state. */
  datatype Cluster = Cluster(factor: int, peers: set<PeerId>, base: map<PeerId, int>)

  /** All copies the shared state asks for. */
  ghost function Copies(k: Cluster, pins: PinMap): int {
    Sum(k.peers, p => Share(pins, p))
  }

  function LoadIn(k: Cluster, pins: PinMap, p: PeerId): int {
    (if p in k.base then k.base[p] else 0) + Share(pins, p)
  }

  /** The leader has a usable metric of every peer, and it counts all its pins. */
  ghost predicate UpToDate(k: Cluster, pins: PinMap, v: View) {
    && v.factor == k.factor && v.pins == Some(pins) && v.peers == k.peers && v.leader && v.metrics.Some?
    && forall p :: p in k.peers ==>
         var m := LastOf(Received(v), p);
         !m.Discard(v.filteredAt) && Usable(m, v.sortedAt) && Load(v, p) == LoadIn(k, pins, p)
  }

  /** One call of Pin for a CID that is not in the shared state, and what it commits. */
  datatype PinStep = PinStep(v: View, c: Cid, peers: seq<PeerId>)

  function Commit(pins: PinMap, st: PinStep): PinMap {
    pins[st.c := CidArg(st.c, st.peers, false)]
  }

  ghost predicate Pins(k: Cluster, pins: PinMap, run: seq<PinStep>)
    decreases |run|
  {
    run == [] ||
    (var st := run[0];
     && st.c !in pins && UpToDate(k, pins, st.v) && Chosen(st.v, st.c, st.peers)
     && Pins(k, Commit(pins, st), run[1..]))
  }

  ghost function After(pins: PinMap, run: seq<PinStep>): PinMap
    decreases |run|
  {
    if run == [] then pins else After(Commit(pins, run[0]), run[1..])
  }

  ghost predicate Balanced(k: Cluster, pins: PinMap) {
    forall p, q :: p in k.peers && q in k.peers ==> LoadIn(k, pins, p) <= LoadIn(k, pins, q) + 1
  }

  lemma ShareGrows(pins: PinMap, st: PinStep, p: PeerId)
    requires st.c !in pins
    ensures Share(Commit(pins, st), p) == Share(pins, p) + if p in ToSet(st.peers) then 1 else 0
  {
    var pins' := Commit(pins, st);
    var mine := set c | c in pins && p in pins[c].allocations;
    var mine' := set c | c in pins' && p in pins'[c].allocations;
    if p in st.peers {
      assert mine' == mine + {st.c};
    } else {
      assert mine' == mine;
    }
  }

  /** When every peer is up to date and the CID is fresh, all peers are eligible. */
  lemma AllEligible(k: Cluster, pins: PinMap, v: View, c: Cid)
    requires UpToDate(k, pins, v) && c !in pins
    ensures Eligible(v, c) == k.peers && Needed(v, c) == k.factor
    ensures Refusal(v, c).None? <==> 0 < k.factor <= |k.peers|
  {
    assert Holders(v, c) == {};
    assert Live(v).Keys == k.peers;
  }

  lemma PinKeepsBalance(k: Cluster, pins: PinMap, st: PinStep)
    requires Balanced(k, pins) && st.c !in pins && UpToDate(k, pins, st.v) && Chosen(st.v, st.c, st.peers)
    ensures Balanced(k, Commit(pins, st))
  {
    AllEligible(k, pins, st.v, st.c);
    forall p, q | p in k.peers && q in k.peers
      ensures LoadIn(k, Commit(pins, st), p) <= LoadIn(k, Commit(pins, st), q) + 1
    {
      ShareGrows(pins, st, p);
      ShareGrows(pins, st, q);
    }
  }

  lemma PinAddsFactor(k: Cluster, pins: PinMap, st: PinStep)
    requires st.c !in pins && UpToDate(k, pins, st.v) && Chosen(st.v, st.c, st.peers)
    ensures Copies(k, Commit(pins, st)) == Copies(k, pins) + k.factor
  {
    AllEligible(k, pins, st.v, st.c);
    DistinctSize(st.peers);
    forall p ensures Share(Commit(pins, st), p) == Share(pins, p) + if p in ToSet(st.peers) then 1 else 0 {
      ShareGrows(pins, st, p);
    }
    SumIncrement(k.peers, ToSet(st.peers), p => Share(pins, p), p => Share(Commit(pins, st), p));
  }

  /** Any run of pins of fresh CIDs keeps max load - min load <= 1 and adds factor copies a pin. */
  lemma {:induction false} RunKeepsBalance(k: Cluster, pins: PinMap, run: seq<PinStep>)
    requires Balanced(k, pins) && Pins(k, pins, run)
    ensures Balanced(k, After(pins, run))
    ensures Copies(k, After(pins, run)) == Copies(k, pins) + |run| * k.factor
    decreases |run|
  {
    hide Copies, Balanced, Chosen, UpToDate;
    if run != [] {
      PinKeepsBalance(k, pins, run[0]);
      PinAddsFactor(k, pins, run[0]);
      RunKeepsBalance(k, Commit(pins, run[0]), run[1..]);
      OneTimesMore(|run[1..]|, k.factor);
    }
  }

  /** From equal loads, a run whose copies divide evenly gives every peer the same number. */
  lemma EvenShares(k: Cluster, pins: PinMap, run: seq<PinStep>, level: int, each: int, p: PeerId)
    requires forall q :: q in k.peers ==> LoadIn(k, pins, q) == level
    requires Pins(k, pins, run) && |run| * k.factor == |k.peers| * each && p in k.peers
    ensures Share(After(pins, run), p) == Share(pins, p) + each
  {
    RunKeepsBalance(k, pins, run);
    var pins' := After(pins, run);
    var before, after := (q: PeerId) => Share(pins, q) as int, (q: PeerId) => Share(pins', q) as int;
    var gain := (q: PeerId) => Share(pins', q) - Share(pins, q);
    SumDifference(k.peers, after, before, gain);
    SumSame(k.peers, after, q => Share(pins', q));
    SumSame(k.peers, before, q => Share(pins, q));
    assert forall q, r :: q in k.peers && r in k.peers ==> gain(q) <= gain(r) + 1 by {
      forall q, r | q in k.peers && r in k.peers ensures gain(q) <= gain(r) + 1 {
        assert LoadIn(k, pins', q) <= LoadIn(k, pins', r) + 1;
      }
    }
    EvenGain(k.peers, gain, each, p);
  }

  lemma {:induction false} SumSame(ps: set<PeerId>, f: PeerId -> int, g: PeerId -> int)
    requires forall p :: p in ps ==> f(p) == g(p)
    ensures Sum(ps, f) == Sum(ps, g)
  {
    SumIncrement(ps, {}, f, g);
  }

  lemma {:induction false} SumDifference(ps: set<PeerId>, f: PeerId -> int, g: PeerId -> int, d: PeerId -> int)
    requires forall p :: p in ps ==> d(p) == f(p) - g(p)
    ensures Sum(ps, d) == Sum(ps, f) - Sum(ps, g)
    decreases |ps|
  {
    if ps != {} {
      var p :| p in ps;
      SumRemove(ps, p, f);
      SumRemove(ps, p, g);
      SumRemove(ps, p, d);
      SumDifference(ps - {p}, f, g, d);
    }
  }

  lemma EvenGain(ps: set<PeerId>, gain: PeerId -> int, each: int, p: PeerId)
    requires p in ps && Sum(ps, gain) == |ps| * each
    requires forall q, r :: q in ps && r in ps ==> gain(q) <= gain(r) + 1
    ensures gain(p) == each
  {
    SumRemove(ps, p, gain);
    var rest := ps - {p};
    OneTimesMore(|rest|, each);
    if gain(p) > each {
      forall q | q in rest ensures gain(q) >= each { assert gain(p) <= gain(q) + 1; }
      SumAtLeast(rest, gain, each);
    } else if gain(p) < each {
      forall q | q in rest ensures gain(q) <= each { assert gain(q) <= gain(p) + 1; }
      SumAtMost(rest, gain, each);
    }
  }

  /** N pins with factor N - 1 put exactly N - 1 new pins on every peer, in any order of choices. */
  lemma OnePinShort(k: Cluster, pins: PinMap, run: seq<PinStep>, level: int, p: PeerId)
    requires forall q :: q in k.peers ==> LoadIn(k, pins, q) == level
    requires Pins(k, pins, run) && |run| == |k.peers| && k.factor == |k.peers| - 1 && p in k.peers
    ensures Share(After(pins, run), p) == Share(pins, p) + |k.peers| - 1
  {
    EvenShares(k, pins, run, level, |k.peers| - 1, p);
  }
}
