/** Cluster.allocate (cluster.go) and the numpin allocator (allocator/numpinalloc/numpinalloc.go). */
module Allocation {
  import opened Types
  import opened Decimal

  const INVALID := Metric("", "", "", 0, false)

  /** What allocate reads: configuration, shared state, peers, the leader's metrics, the clock.
      `metrics` is None when the RPC to the leader fails. */
  datatype View = View(
    factor: int,
    pins: Option<map<Cid, CidArg>>,
    peers: set<PeerId>,
    leader: bool,
    metrics: Option<seq<Metric>>,
    filteredAt: Time,
    sortedAt: Time)

  datatype AllocError = BadFactor | NoLeader | NoMetrics | AlreadyAllocated | NotEnough
  datatype AllocResult = Allocated(peers: seq<PeerId>) | Refused(error: AllocError)

  // ---- what the decision depends on -----------------------------------------------------------

  /** The metric of `p` that counts: the last one received. */
  function LastOf(metrics: seq<Metric>, p: PeerId): Metric {
    if metrics == [] then INVALID
    else
      var last := metrics[|metrics| - 1];
      if last.peer == p then last else LastOf(metrics[..|metrics| - 1], p)
  }

  function Received(v: View): seq<Metric> {
    if v.metrics.Some? then v.metrics.value else []
  }

  function Live(v: View): map<PeerId, Metric> {
    map p | p in v.peers && !LastOf(Received(v), p).Discard(v.filteredAt) :: LastOf(Received(v), p)
  }

  function Current(v: View, c: Cid): seq<PeerId> {
    if v.pins.Some? && c in v.pins.value then v.pins.value[c].allocations else []
  }

  function Holders(v: View, c: Cid): set<PeerId> {
    set p | p in Live(v) && p in Current(v, c)
  }

  predicate Usable(m: Metric, now: Time) {
    m.name == NUMPIN && !m.Discard(now) && Atoi(m.value).Some?
  }

  function Eligible(v: View, c: Cid): set<PeerId> {
    set p | p in Live(v) && p !in Current(v, c) && Usable(Live(v)[p], v.sortedAt)
  }

  function Needed(v: View, c: Cid): int {
    v.factor - |Holders(v, c)|
  }

  /** The pin count a metric reports. */
  function PinCount(m: Metric): int {
    var n := Atoi(m.value);
    if n.Some? then n.value else 0
  }

  function Load(v: View, p: PeerId): int {
    PinCount(LastOf(Received(v), p))
  }

  /** The pin counts of the usable candidates among `ps`. */
  function Counts(candidates: map<PeerId, Metric>, ps: set<PeerId>, now: Time): map<PeerId, int> {
    map p | p in ps && p in candidates && Usable(candidates[p], now) :: PinCount(candidates[p])
  }

  lemma CountsGrow(candidates: map<PeerId, Metric>, ps: set<PeerId>, now: Time, k: PeerId)
    requires k in candidates && k !in ps
    ensures Counts(candidates, ps + {k}, now)
         == if Usable(candidates[k], now) then Counts(candidates, ps, now)[k := PinCount(candidates[k])]
            else Counts(candidates, ps, now)
  {
  }

  /** `m` is the last metric received from `p`. */
  ghost predicate LastReceived(metrics: seq<Metric>, p: PeerId, m: Metric) {
    exists i :: 0 <= i < |metrics| && metrics[i] == m && m.peer == p
      && forall j :: i < j < |metrics| ==> metrics[j].peer != p
  }

  lemma {:induction false} LastOfReceived(metrics: seq<Metric>, p: PeerId)
    ensures (exists m :: m in metrics && m.peer == p) ==> LastReceived(metrics, p, LastOf(metrics, p))
    ensures (forall m :: m in metrics ==> m.peer != p) ==> !LastOf(metrics, p).valid
  {
    if metrics != [] {
      var n := |metrics| - 1;
      LastOfReceived(metrics[..n], p);
      if metrics[n].peer == p {
        assert LastReceived(metrics, p, metrics[n]);
      } else if exists m :: m in metrics && m.peer == p {
        assert metrics == metrics[..n] + [metrics[n]];
        var i :| 0 <= i < n && metrics[i] == LastOf(metrics, p) && LastOf(metrics, p).peer == p
                 && forall j :: i < j < n ==> metrics[..n][j].peer != p;
        assert forall j :: i < j < |metrics| ==> metrics[j].peer != p;
        assert LastReceived(metrics, p, LastOf(metrics, p));
      }
    }
  }

  /** A live peer: one of the cluster whose last metric is valid and unexpired when metrics are filtered. */
  ghost predicate IsLive(v: View, p: PeerId) {
    && p in v.peers && v.metrics.Some?
    && exists m :: LastReceived(v.metrics.value, p, m) && m.valid && v.filteredAt <= m.expire as real
  }

  ghost predicate IsStored(v: View, c: Cid, p: PeerId) {
    v.pins.Some? && c in v.pins.value && p in v.pins.value[c].allocations
  }

  /** The holders are the live peers the state names; eligible are the other live peers, if their
      metric is a pin count and still unexpired when it is sorted. */
  lemma WhoIsWho(v: View, c: Cid, p: PeerId)
    ensures p in Holders(v, c) <==> IsLive(v, p) && IsStored(v, c, p)
    ensures p in Eligible(v, c) <==>
      && IsLive(v, p) && !IsStored(v, c, p)
      && exists m :: LastReceived(v.metrics.value, p, m) && m.name == "numpin" && v.sortedAt <= m.expire as real
           && Atoi(m.value).Some?
    ensures forall m :: v.metrics.Some? && LastReceived(v.metrics.value, p, m) && Atoi(m.value).Some? ==>
      Load(v, p) == Atoi(m.value).value
  {
    hide Atoi;
    LastOfReceived(Received(v), p);
    forall m | LastReceived(Received(v), p, m)
      ensures m == LastOf(Received(v), p)
    {
      LastIsOne(Received(v), p, m, LastOf(Received(v), p));
    }
  }

  lemma LastIsOne(metrics: seq<Metric>, p: PeerId, m: Metric, n: Metric)
    requires LastReceived(metrics, p, m) && LastReceived(metrics, p, n)
    ensures m == n
  {
  }

  // ---- the sorter -----------------------------------------------------------------------------

  lemma NothingCounted(candidates: map<PeerId, Metric>, now: Time)
    ensures Counts(candidates, {}, now) == map[] && Enumerates([], Counts(candidates, {}, now).Keys)
  {
  }

  lemma CountedAreDone(candidates: map<PeerId, Metric>, done: set<PeerId>, now: Time)
    ensures Counts(candidates, done, now).Keys <= done
  {
  }

  class MetricsSorter {
    var peers: seq<PeerId>
    var m: map<PeerId, int>

    ghost predicate Valid()
      reads this
    {
      Enumerates(peers, m.Keys)
    }

    constructor (peers: seq<PeerId>, m: map<PeerId, int>)
      requires Enumerates(peers, m.Keys)
      ensures Valid() && this.peers == peers && this.m == m
    {
      this.peers, this.m := peers, m;
    }

    function Len(): nat
      reads this
    {
      |peers|
    }

    predicate Less(i: nat, j: nat)
      requires Valid() && i < Len() && j < Len()
      reads this
    {
      m[peers[i]] < m[peers[j]]
    }

    method Swap(i: nat, j: nat)
      requires Valid() && i < Len() && j < Len()
      modifies this`peers
      ensures Valid() && peers == old(peers)[i := old(peers)[j]][j := old(peers)[i]]
    {
      var temp := peers[i];
      peers := peers[i := peers[j]];
      peers := peers[j := temp];
      assert forall k :: 0 <= k < |peers| ==> peers[k] == old(peers)[if k == i then j else if k == j then i else k];
      assert forall p :: p in old(peers) ==> p in peers by {
        forall p | p in old(peers) ensures p in peers {
          var k :| 0 <= k < |peers| && old(peers)[k] == p;
          assert peers[if k == i then j else if k == j then i else k] == p;
        }
      }
    }

    /** Moves the peer at `i` down to its place among the first ones. */
    method Insert(i: nat)
      requires Valid() && i < Len() && Ascending(peers[..i], m)
      modifies this`peers
      ensures Valid() && Len() == old(Len()) && Ascending(peers[..i + 1], m)
    {
      hide Enumerates;
      assert forall p :: p in peers ==> p in m by { KnownPeers(); }
      var j := i;
      while j > 0 && Less(j, j - 1)
        invariant Valid() && Len() == old(Len()) && 0 <= j <= i
        invariant forall k :: 0 <= k < Len() ==> peers[k] in m
        invariant forall a, b :: 0 <= a < b <= i && b != j ==> m[peers[a]] <= m[peers[b]]
      {
        Swap(j, j - 1);
        KnownPeers();
        j := j - 1;
      }
    }

    lemma KnownPeers()
      requires Valid()
      ensures forall k :: 0 <= k < Len() ==> peers[k] in m
      ensures forall p :: p in peers ==> p in m
    {
      assert forall k :: 0 <= k < Len() ==> peers[k] in peers;
    }

    /** sort.Sort through Len, Less and Swap. */
    method Sort()
      requires Valid()
      modifies this`peers
      ensures Valid() && Ascending(peers, m)
    {
      hide Enumerates;
      var n := Len();
      var i := 0;
      while i < n
        invariant Valid() && Len() == n && 0 <= i <= n && Ascending(peers[..i], m)
      {
        Insert(i);
        i := i + 1;
      }
      assert peers[..n] == peers;
    }
  }

  ghost predicate Ascending(peers: seq<PeerId>, m: map<PeerId, int>) {
    && (forall p :: p in peers ==> p in m)
    && (forall a, b :: 0 <= a < b < |peers| ==> m[peers[a]] <= m[peers[b]])
  }

  /** A pin count, valid and unexpired. */
  predicate Sortable(m: Metric, now: Time) {
    m.name == "numpin" && m.valid && now <= m.expire as real && Atoi(m.value).Some?
  }

  lemma SortableIsNumber(now: Time)
    ensures forall m :: Sortable(m, now) ==> Atoi(m.value).Some?
  {
  }

  lemma CountsAre(candidates: map<PeerId, Metric>, now: Time)
    ensures var counts := Counts(candidates, candidates.Keys, now);
      && (forall p :: p in counts <==> p in candidates && Sortable(candidates[p], now))
      && (forall p :: p in counts ==> Some(counts[p]) == Atoi(candidates[p].value))
  {
    hide Atoi;
  }

  /** What the loop of newMetricsSorter has built from the candidates in `done`. */
  ghost predicate Gathered(
      peers: seq<PeerId>, m: map<PeerId, int>, candidates: map<PeerId, Metric>, done: set<PeerId>, now: Time)
  {
    Enumerates(peers, m.Keys) && m == Counts(candidates, done, now)
  }

  lemma NothingGathered(candidates: map<PeerId, Metric>, now: Time)
    ensures Gathered([], map[], candidates, {}, now)
  {
    NothingCounted(candidates, now);
    EnumeratesNone<PeerId>({});
  }

  lemma GatheredIs(
      peers: seq<PeerId>, m: map<PeerId, int>, candidates: map<PeerId, Metric>, done: set<PeerId>, now: Time)
    requires Gathered(peers, m, candidates, done, now)
    ensures Enumerates(peers, m.Keys) && m == Counts(candidates, done, now)
  {
  }

  lemma Gather(
      peers: seq<PeerId>, m: map<PeerId, int>, candidates: map<PeerId, Metric>, done: set<PeerId>, now: Time, k: PeerId)
    requires Gathered(peers, m, candidates, done, now) && k in candidates && k !in done
    ensures var v := candidates[k];
      if v.name == NUMPIN && !v.Discard(now) && Atoi(v.value).Some? then
        Gathered(peers + [k], m[k := Atoi(v.value).value], candidates, done + {k}, now)
      else Gathered(peers, m, candidates, done + {k}, now)
  {
    hide Counts, Enumerates, Atoi;
    CountsGrow(candidates, done, now, k);
    CountedAreDone(candidates, done, now);
    EnumeratesMore(peers, m.Keys, k);
    var v := candidates[k];
    if v.name == NUMPIN && !v.Discard(now) && Atoi(v.value).Some? {
      assert m[k := Atoi(v.value).value].Keys == m.Keys + {k};
    }
  }

  method NewMetricsSorter(candidates: map<PeerId, Metric>, now: Time) returns (sorter: MetricsSorter)
    ensures fresh(sorter) && sorter.Valid() && sorter.m == Counts(candidates, candidates.Keys, now)
    ensures forall p :: p in sorter.m <==> p in candidates && Sortable(candidates[p], now)
    ensures forall p :: p in sorter.m ==> Some(sorter.m[p]) == Atoi(candidates[p].value)
  {
    hide Counts, Enumerates, Gathered, Atoi;
    var peers: seq<PeerId>, m: map<PeerId, int> := [], map[];
    var left := candidates.Keys;
    ghost var done: set<PeerId> := {};
    NothingGathered(candidates, now);
    while left != {}
      invariant left !! done && left + done == candidates.Keys
      invariant Gathered(peers, m, candidates, done, now)
      decreases |left|
    {
      var k :| k in left;
      var v := candidates[k];
      Gather(peers, m, candidates, done, now, k);
      if v.name == NUMPIN && !v.Discard(now) {
        var val := Atoi(v.value);
        if val.Some? {
          peers := peers + [k];
          m := m[k := val.value];
        }
      }
      left, done := left - {k}, done + {k};
    }
    assert done == candidates.Keys;
    GatheredIs(peers, m, candidates, done, now);
    CountsAre(candidates, now);
    sorter := new MetricsSorter(peers, m);
  }

  /** Allocator.Allocate: all usable candidates, least loaded first. */
  method Allocate(candidates: map<PeerId, Metric>, now: Time) returns (peers: seq<PeerId>)
    ensures Enumerates(peers, Counts(candidates, candidates.Keys, now).Keys)
    ensures Ascending(peers, Counts(candidates, candidates.Keys, now))
    ensures Distinct(peers) && forall p :: p in peers <==> p in candidates && Sortable(candidates[p], now)
    ensures forall i, j :: 0 <= i < j < |peers| ==>
      Atoi(candidates[peers[i]].value).value <= Atoi(candidates[peers[j]].value).value
  {
    hide Atoi, Sortable;
    SortableIsNumber(now);
    var numpins := NewMetricsSorter(candidates, now);
    numpins.Sort();
    peers := numpins.peers;
  }

  // ---- Cluster.allocate -------------------------------------------------------------------------

  /** metricsMap before the invalid entries are removed. */
  function Collected(v: View): map<PeerId, Metric> {
    map p | p in v.peers :: LastOf(Received(v), p)
  }

  method CollectMetrics(v: View) returns (metricsMap: map<PeerId, Metric>)
    ensures metricsMap == Collected(v)
  {
    metricsMap := map p | p in v.peers :: INVALID;
    var metrics := Received(v);
    for i := 0 to |metrics|
      invariant metricsMap == map p | p in v.peers :: LastOf(metrics[..i], p)
    {
      assert metrics[..i + 1][..i] == metrics[..i];
      var m := metrics[i];
      if m.peer in metricsMap {
        metricsMap := metricsMap[m.peer := m];
      }
    }
    assert metrics[..|metrics|] == metrics;
  }

  lemma LiveAre(v: View)
    ensures forall p :: p in Live(v) <==> IsLive(v, p)
    ensures forall p :: p in Live(v) ==> v.metrics.Some? && LastReceived(v.metrics.value, p, Live(v)[p])
  {
    forall p
      ensures p in Live(v) <==> IsLive(v, p)
      ensures p in Live(v) ==> v.metrics.Some? && LastReceived(v.metrics.value, p, Live(v)[p])
    {
      LastOfReceived(Received(v), p);
      forall m | LastReceived(Received(v), p, m)
        ensures m == LastOf(Received(v), p)
      {
        LastIsOne(Received(v), p, m, LastOf(Received(v), p));
      }
    }
  }

  method RemoveDiscarded(v: View) returns (metricsMap: map<PeerId, Metric>)
    ensures metricsMap == Live(v)
    ensures forall p :: p in metricsMap <==> IsLive(v, p)
    ensures forall p :: p in metricsMap ==> v.metrics.Some? && LastReceived(v.metrics.value, p, metricsMap[p])
  {
    LiveAre(v);
    hide IsLive, LastReceived;
    metricsMap := CollectMetrics(v);
    var left := metricsMap.Keys;
    while left != {}
      invariant left <= metricsMap.Keys <= v.peers
      invariant forall p :: p in metricsMap <==> p in v.peers && (p in left || p in Live(v))
      invariant forall p :: p in metricsMap ==> metricsMap[p] == LastOf(Received(v), p)
      decreases |left|
    {
      var p :| p in left;
      if metricsMap[p].Discard(v.filteredAt) {
        metricsMap := metricsMap - {p};
      }
      left := left - {p};
    }
  }

  /** Moves the entries of `current` out of `all`; repeated peers are moved once. */
  method MoveCurrent(all: map<PeerId, Metric>, current: seq<PeerId>)
    returns (held: map<PeerId, Metric>, candidates: map<PeerId, Metric>)
    ensures held == map p | p in all && p in current :: all[p]
    ensures candidates == map p | p in all && p !in current :: all[p]
  {
    held, candidates := map[], all;
    for i := 0 to |current|
      invariant held == map p | p in all && p in current[..i] :: all[p]
      invariant candidates == map p | p in all && p !in current[..i] :: all[p]
    {
      assert current[..i + 1] == current[..i] + [current[i]];
      var p := current[i];
      if p in candidates {
        held := held[p := candidates[p]];
        candidates := candidates - {p};
      }
    }
    assert current[..|current|] == current;
  }

  /** When allocate fails, and how. */
  function Refusal(v: View, c: Cid): Option<AllocError> {
    if v.factor <= 0 then Some(BadFactor)
    else if !v.leader then Some(NoLeader)
    else if v.metrics.None? then Some(NoMetrics)
    else if Needed(v, c) <= 0 then Some(AlreadyAllocated)
    else if |Eligible(v, c)| < Needed(v, c) then Some(NotEnough)
    else None
  }

  /** A correct answer: as many distinct eligible peers as needed, in ascending order of load, and
      none of them more loaded than an eligible peer left out. */
  ghost predicate Chosen(v: View, c: Cid, peers: seq<PeerId>) {
    && |peers| == Needed(v, c) && Distinct(peers) && ToSet(peers) <= Eligible(v, c)
    && (forall i, j :: 0 <= i < j < |peers| ==> Load(v, peers[i]) <= Load(v, peers[j]))
    && (forall p, q :: p in peers && q in Eligible(v, c) && q !in peers ==> Load(v, p) <= Load(v, q))
  }

  lemma PrefixIsChosen(v: View, c: Cid, ranked: seq<PeerId>, counts: map<PeerId, int>)
    requires Enumerates(ranked, Eligible(v, c)) && Ascending(ranked, counts)
    requires forall p :: p in Eligible(v, c) ==> p in counts && counts[p] == Load(v, p)
    requires 0 <= Needed(v, c) <= |ranked|
    ensures Chosen(v, c, ranked[..Needed(v, c)])
  {
    var peers := ranked[..Needed(v, c)];
    forall p, q | p in peers && q in Eligible(v, c) && q !in peers
      ensures Load(v, p) <= Load(v, q)
    {
      var i :| 0 <= i < |peers| && peers[i] == p;
      var j :| 0 <= j < |ranked| && ranked[j] == q;
      assert j >= |peers|;
    }
  }

  method AllocatePeers(v: View, c: Cid) returns (r: AllocResult)
    ensures r.Allocated? <==>
      v.factor > 0 && v.leader && v.metrics.Some? && 0 < Needed(v, c) <= |Eligible(v, c)|
    ensures r == Refused(BadFactor) <==> v.factor <= 0
    ensures r == Refused(NoLeader) <==> v.factor > 0 && !v.leader
    ensures r == Refused(NoMetrics) <==> v.factor > 0 && v.leader && v.metrics.None?
    ensures r == Refused(AlreadyAllocated) <==>
      v.factor > 0 && v.leader && v.metrics.Some? && v.factor <= |Holders(v, c)|
    ensures r == Refused(NotEnough) <==>
      v.factor > 0 && v.leader && v.metrics.Some? && v.factor > |Holders(v, c)|
      && |Eligible(v, c)| < v.factor - |Holders(v, c)|
    ensures r.Refused? <==> Refusal(v, c).Some?
    ensures r.Refused? ==> r.error == Refusal(v, c).value
    ensures r.Allocated? ==> Chosen(v, c, r.peers)
  {
    hide Chosen, Holders, Eligible, Live, Current, Counts, Ascending, Enumerates, Sortable, IsLive, LastReceived, Atoi;
    if v.factor <= 0 {
      return Refused(BadFactor);
    }
    var current := Current(v, c);
    if !v.leader {
      return Refused(NoLeader);
    }
    if v.metrics.None? {
      return Refused(NoMetrics);
    }
    var metricsMap := RemoveDiscarded(v);
    var held, candidates := MoveCurrent(metricsMap, current);
    HeldAre(v, c, held);
    var needed := v.factor - |held|;
    if needed <= 0 {
      return Refused(AlreadyAllocated);
    }
    var ranked := Allocate(candidates, v.sortedAt);
    RankedAreEligible(v, c, candidates, ranked);
    if |ranked| < needed {
      return Refused(NotEnough);
    }
    r := Allocated(ranked[..needed]);
  }

  lemma HeldAre(v: View, c: Cid, held: map<PeerId, Metric>)
    requires held == map p | p in Live(v) && p in Current(v, c) :: Live(v)[p]
    ensures |held| == |Holders(v, c)|
  {
    hide Live, Current;
    assert held.Keys == Holders(v, c);
    assert |held| == |held.Keys|;
  }

  lemma RankedAreEligible(v: View, c: Cid, candidates: map<PeerId, Metric>, ranked: seq<PeerId>)
    requires candidates == map p | p in Live(v) && p !in Current(v, c) :: Live(v)[p]
    requires Enumerates(ranked, Counts(candidates, candidates.Keys, v.sortedAt).Keys)
    requires Ascending(ranked, Counts(candidates, candidates.Keys, v.sortedAt))
    ensures |ranked| == |Eligible(v, c)|
    ensures 0 <= Needed(v, c) <= |ranked| ==> Chosen(v, c, ranked[..Needed(v, c)])
  {
    hide Atoi;
    var counts := Counts(candidates, candidates.Keys, v.sortedAt);
    assert counts.Keys == Eligible(v, c);
    DistinctSize(ranked);
    assert ToSet(ranked) == Eligible(v, c);
    if 0 <= Needed(v, c) <= |ranked| {
      PrefixIsChosen(v, c, ranked, counts);
    }
  }
}
