/** The metric windows and the monitor of peer_monitor.go. */
module PeerMonitor {
  import opened Types

  /** The last `w` elements. */
  function Tail<T>(s: seq<T>, w: nat): seq<T> {
    if |s| <= w then s else s[|s| - w..]
  }

  function Reversed<T>(s: seq<T>): seq<T> {
    if s == [] then [] else Reversed(s[1..]) + [s[0]]
  }

  lemma {:induction false} ReversedConcat<T>(s: seq<T>, t: seq<T>)
    ensures Reversed(s + t) == Reversed(t) + Reversed(s)
    decreases |s|
  {
    if s == [] {
      assert s + t == t;
    } else {
      ReversedConcat(s[1..], t);
      assert (s + t)[1..] == s[1..] + t;
    }
  }

  /** Appending to a full window drops its oldest element. */
  lemma TailAppend<T>(s: seq<T>, x: T, w: nat)
    requires w > 0
    ensures Tail(s + [x], w) == if |Tail(s, w)| < w then Tail(s, w) + [x] else Tail(s, w)[1..] + [x]
  {
  }

  function Wrapped(i: nat, n: nat): (j: nat)
    requires i < n
    ensures j == if i + 1 == n then 0 else i + 1
  {
    (i + 1) % n
  }

  /** `res` are the last `w` elements of `s`, or all of fewer, the last one first. */
  ghost predicate NewestFirst<T>(res: seq<T>, s: seq<T>, w: nat) {
    && |res| == (if |s| < w then |s| else w)
    && (forall i :: 0 <= i < |res| ==> res[i] == s[|s| - 1 - i])
  }

  lemma {:induction false} ReversedAt<T>(s: seq<T>, i: nat)
    requires i < |s|
    ensures |Reversed(s)| == |s| && Reversed(s)[i] == s[|s| - 1 - i]
  {
    if |s| > 1 {
      ReversedAt(s[1..], if i < |s| - 1 then i else 0);
    }
  }

  lemma NewestFirstMeans<T>(s: seq<T>, w: nat)
    ensures NewestFirst(Reversed(Tail(s, w)), s, w)
  {
    var t := Tail(s, w);
    forall i | 0 <= i < |t| {
      ReversedAt(t, i);
    }
    if t != [] {
      ReversedAt(t, 0);
    }
  }

  /** The metrics in a window, oldest first. */
  function Oldest(w: seq<Metric>, last: nat, len: nat): seq<Metric>
    requires len <= |w| && last < |w|
  {
    if len < |w| then w[..len] else w[last + 1..] + w[..last + 1]
  }

  lemma OldestLength(w: seq<Metric>, last: nat, len: nat)
    requires len <= |w| && last < |w|
    ensures |Oldest(w, last, len)| == len
  {
  }

  lemma PutNext(w: seq<Metric>, last: nat, len: nat, m: Metric)
    requires len < |w| && last < |w|
    ensures Oldest(w[len := m], len, len + 1) == Oldest(w, last, len) + [m]
  {
    var w' := w[len := m];
    assert w'[..len + 1] == w[..len] + [m];
    if len + 1 == |w| {
      assert w'[len + 1..] == [];
    }
  }

  lemma PutOver(w: seq<Metric>, last: nat, m: Metric)
    requires last < |w|
    ensures var next := Wrapped(last, |w|); Oldest(w[next := m], next, |w|) == Oldest(w, last, |w|)[1..] + [m]
  {
    var next := Wrapped(last, |w|);
    var w' := w[next := m];
    assert w'[..next + 1] == w[..next] + [m] && w'[next + 1..] == w[next + 1..];
    if next == 0 {
      assert w[last + 1..] == [] && w[..last + 1] == w;
    } else {
      assert (w[last + 1..] + w[..last + 1])[1..] == w[next + 1..] + w[..next];
    }
  }

  /** A circular queue; `history` is everything ever added. */
  class PeerMetrics {
    var last: nat
    var len: nat
    const window: array<Metric>
    ghost var history: seq<Metric>

    ghost predicate Valid()
      reads this, window
    {
      && 0 < window.Length && len <= window.Length && last < window.Length
      && (0 < len < window.Length ==> last == len - 1)
      && Contents() == Tail(history, window.Length)
    }

    /** Oldest first. */
    ghost function Contents(): seq<Metric>
      requires len <= window.Length && last < window.Length
      reads this, window
    {
      Oldest(window[..], last, len)
    }

    constructor (windowCap: nat)
      requires windowCap > 0
      ensures Valid() && history == [] && window.Length == windowCap && fresh(window)
    {
      last, len, history := 0, 0, [];
      window := new Metric[windowCap](_ => Metric("", "", "", 0, false));
    }

    lemma ContentsSplit()
      requires Valid() && len > 0
      ensures last < len && Contents() == window[last + 1..len] + window[..last + 1]
    {
      var w := window[..];
      assert w[..last + 1] == window[..last + 1];
      if len < window.Length {
        assert w[..len] == window[..last + 1] && window[last + 1..len] == [];
      } else {
        assert w[last + 1..] == window[last + 1..len];
      }
    }

    method Add(m: Metric)
      requires Valid()
      modifies this, window
      ensures Valid() && history == old(history) + [m]
    {
      hide Wrapped, Tail, Oldest;
      TailAppend(history, m, window.Length);
      ghost var w := window[..];
      history := history + [m];
      if len < window.Length {
        PutNext(w, last, len, m);
        OldestLength(w, last, len);
        window[len] := m;
        len := len + 1;
        last := len - 1;
        assert window[..] == w[len - 1 := m];
      } else {
        PutOver(w, last, m);
        OldestLength(w, last, len);
        last := Wrapped(last, window.Length);
        window[last] := m;
        assert window[..] == w[last := m];
      }
    }

    method Latest() returns (r: Option<Metric>)
      requires Valid()
      ensures history == [] ==> r == None
      ensures history != [] ==> r == Some(history[|history| - 1])
    {
      if len == 0 {
        return None;
      }
      assert Contents()[|Contents()| - 1] == window[last];
      r := Some(window[last]);
    }

    /** all() with its second loop starting at `start`; an index out of range panics. With
        len(window) - 1 it lists the window newest to oldest. */
    method AllFrom(start: int) returns (panicked: bool, res: seq<Metric>)
      requires Valid()
      ensures panicked <==> history != [] && start >= len
      ensures history == [] ==> res == []
      ensures start == len - 1 ==> res == Reversed(Tail(history, window.Length))
      ensures start == len - 1 ==> NewestFirst(res, history, window.Length)
    {
      NewestFirstMeans(history, window.Length);
      hide NewestFirst;
      panicked, res := false, [];
      if len == 0 {
        return;
      }
      var i: int := last;
      while i >= 0
        invariant -1 <= i <= last
        invariant res == Reversed(window[i + 1..last + 1])
        decreases i
      {
        assert window[i..last + 1][1..] == window[i + 1..last + 1];
        res := res + [window[i]];
        i := i - 1;
      }
      ghost var newer := res;
      i := start;
      while i > last
        invariant start < len ==> i <= start
        invariant start >= len ==> i == start
        invariant start == len - 1 ==> last <= i && res == newer + Reversed(window[i + 1..len])
        decreases i
      {
        if i >= len {
          panicked := true;
          return;
        }
        assert window[i..len][1..] == window[i + 1..len];
        res := res + [window[i]];
        i := i - 1;
      }
      if start == len - 1 {
        ContentsSplit();
        ReversedConcat(window[last + 1..len], window[..last + 1]);
        assert window[0..last + 1] == window[..last + 1];
      }
    }

    /** all() as written: the second loop starts at len(window). */
    method All() returns (panicked: bool, res: seq<Metric>)
      requires Valid()
      ensures panicked <==> history != []
      ensures !panicked ==> res == []
    {
      panicked, res := AllFrom(len);
    }
  }

  // ---- the monitor ----------------------------------------------------------------------------

  /** All metrics of one name from one peer, in order. */
  function Of(log: seq<Metric>, name: string, p: PeerId): seq<Metric> {
    if log == [] then []
    else
      var m := log[|log| - 1];
      Of(log[..|log| - 1], name, p) + if m.name == name && m.peer == p then [m] else []
  }

  /** The most recent metric of that name from that peer. */
  function LatestOf(log: seq<Metric>, name: string, p: PeerId): Option<Metric> {
    if log == [] then None
    else
      var m := log[|log| - 1];
      if m.name == name && m.peer == p then Some(m) else LatestOf(log[..|log| - 1], name, p)
  }

  lemma {:induction false} LatestIsLast(log: seq<Metric>, name: string, p: PeerId)
    ensures var h := Of(log, name, p); LatestOf(log, name, p) == if h == [] then None else Some(h[|h| - 1])
    ensures var r := LatestOf(log, name, p); r.Some? ==> r.value.name == name && r.value.peer == p
    decreases |log|
  {
    if log != [] {
      LatestIsLast(log[..|log| - 1], name, p);
    }
  }

  /** `m` is the most recent metric of that name from its peer. */
  ghost predicate Newest(log: seq<Metric>, name: string, m: Metric) {
    exists i :: 0 <= i < |log| && log[i] == m && NoneAfter(log, name, m, i)
  }

  ghost predicate NoneAfter(log: seq<Metric>, name: string, m: Metric, i: nat) {
    m.name == name && forall j :: i < j < |log| ==> log[j].name != name || log[j].peer != m.peer
  }

  lemma {:induction false} NewestIsLatest(log: seq<Metric>, name: string, m: Metric)
    ensures Newest(log, name, m) <==> LatestOf(log, name, m.peer) == Some(m)
    decreases |log|
  {
    if log != [] {
      var n := |log| - 1;
      var front, last := log[..n], log[n];
      NewestIsLatest(front, name, m);
      if last.name == name && last.peer == m.peer {
        assert last == m ==> NoneAfter(log, name, m, n);
      } else {
        if i :| 0 <= i < |log| && log[i] == m && NoneAfter(log, name, m, i) {
          assert front[i] == m && NoneAfter(front, name, m, i);
        }
        if i :| 0 <= i < |front| && front[i] == m && NoneAfter(front, name, m, i) {
          assert log[i] == m && NoneAfter(log, name, m, i) by {
            assert forall j :: i < j < n ==> log[j] == front[j];
          }
        }
      }
    }
  }

  lemma LatestIsNewest(log: seq<Metric>, name: string)
    ensures forall m :: Newest(log, name, m) <==> LatestOf(log, name, m.peer) == Some(m)
  {
    forall m {
      NewestIsLatest(log, name, m);
    }
  }

  lemma OfAppend(log: seq<Metric>, m: Metric, name: string, p: PeerId)
    ensures Of(log + [m], name, p) == Of(log, name, p) + if m.name == name && m.peer == p then [m] else []
  {
    assert (log + [m])[..|log|] == log;
  }

  /** What LastMetrics must return for `name` at `now`: the most recent metric of each peer that has
      one which is neither invalid nor expired, once each, and nothing else. */
  ghost predicate LastMetricsOf(ms: seq<Metric>, log: seq<Metric>, name: string, now: Time) {
    && (forall i :: 0 <= i < |ms| ==> LatestOf(log, name, ms[i].peer) == Some(ms[i]) && !ms[i].Discard(now))
    && (forall p :: LatestOf(log, name, p).Some? && !LatestOf(log, name, p).value.Discard(now) ==>
         LatestOf(log, name, p).value in ms)
    && (forall i, j :: 0 <= i < j < |ms| ==> ms[i].peer != ms[j].peer)
  }

  class StdPeerMonitor {
    const windowCap: nat
    var metrics: map<string, map<PeerId, PeerMetrics>>
    ghost var log: seq<Metric>
    ghost var owners: map<object, (string, PeerId)>  // every window object and whose it is

    ghost predicate Valid()
      reads this, owners.Keys
    {
      && windowCap > 0 && this !in owners
      && (forall n, p :: Has(n, p) ==> BufferOk(n, p, metrics[n][p]))
      && (forall n, p :: Of(log, n, p) != [] ==> Has(n, p))
    }

    ghost predicate Has(n: string, p: PeerId)
      reads this
    {
      n in metrics && p in metrics[n]
    }

    ghost predicate BufferOk(n: string, p: PeerId, b: PeerMetrics)
      reads this, owners.Keys
    {
      && b in owners && owners[b] == (n, p) && b.window in owners && owners[b.window] == (n, p)
      && b.Valid() && b.window.Length == windowCap && b.history == Of(log, n, p)
    }

    constructor (windowCap: nat)
      requires windowCap > 0
      ensures Valid() && this.windowCap == windowCap && log == [] && owners == map[]
    {
      this.windowCap := windowCap;
      metrics, log, owners := map[], [], map[];
    }

    /** The window for `name` and `peer`, created on the first metric. */
    method Window(name: string, peer: PeerId) returns (pmets: PeerMetrics)
      requires Valid()
      modifies this
      ensures Valid() && log == old(log) && fresh(owners.Keys - old(owners).Keys) && old(owners).Keys <= owners.Keys
      ensures name in metrics && peer in metrics[name] && metrics[name][peer] == pmets
      ensures pmets in old(owners) ==> pmets.window in old(owners)
    {
      hide PeerMetrics.Valid, PeerMetrics.Contents, Of, Tail;
      var mbyp: map<PeerId, PeerMetrics> := map[];
      if name in metrics {
        mbyp := metrics[name];
      }
      if peer in mbyp {
        pmets := mbyp[peer];
        return;
      }
      assert !Has(name, peer) && Of(log, name, peer) == [];
      pmets := new PeerMetrics(windowCap);
      mbyp := mbyp[peer := pmets];
      owners := owners[pmets := (name, peer)][pmets.window := (name, peer)];
      metrics := metrics[name := mbyp];
      forall n, p | Has(n, p)
        ensures BufferOk(n, p, metrics[n][p])
      {
        if n == name && p == peer {
          assert Of(log, n, p) == [];
        } else {
          assert old(Has(n, p) && BufferOk(n, p, metrics[n][p]));
        }
      }
      forall n, p | Of(log, n, p) != []
        ensures Has(n, p)
      {
        assert old(Has(n, p));
      }
    }

    method LogMetric(m: Metric)
      requires Valid()
      modifies this, owners.Keys
      ensures Valid() && log == old(log) + [m] && fresh(owners.Keys - old(owners).Keys)
    {
      hide PeerMetrics.Valid, PeerMetrics.Contents, Of;
      var pmets := Window(m.name, m.peer);
      assert Has(m.name, m.peer) && BufferOk(m.name, m.peer, pmets);
      label before:
      pmets.Add(m);
      log := log + [m];
      forall n, p
        ensures Of(log, n, p) == old@before(Of(log, n, p)) + if m.name == n && m.peer == p then [m] else []
      {
        OfAppend(old@before(log), m, n, p);
      }
      forall n, p | Has(n, p)
        ensures BufferOk(n, p, metrics[n][p])
      {
        var b := metrics[n][p];
        assert old@before(Has(n, p) && BufferOk(n, p, b));
        if n == m.name && p == m.peer {
          assert b == pmets;
        } else {
          assert b != pmets && b.window != pmets.window;
        }
      }
      forall n, p | Of(log, n, p) != []
        ensures Has(n, p)
      {
        assert old@before(Of(log, n, p) != [] ==> Has(n, p));
      }
    }

    lemma BufferLatest(name: string, p: PeerId)
      requires Valid() && name in metrics && p in metrics[name]
      ensures var b := metrics[name][p];
        b.Valid() && LatestOf(log, name, p) == if b.history == [] then None else Some(b.history[|b.history| - 1])
    {
      LatestIsLast(log, name, p);
      assert Has(name, p) && BufferOk(name, p, metrics[name][p]);
    }

    method LastMetrics(name: string, now: Time) returns (ms: seq<Metric>)
      requires Valid()
      ensures LastMetricsOf(ms, log, name, now)
      ensures forall i, j :: 0 <= i < j < |ms| ==> ms[i].peer != ms[j].peer
      ensures forall m :: m in ms <==> Newest(log, name, m) && m.valid && now <= m.expire as real
    {
      LatestIsNewest(log, name);
      forall p { LatestIsLast(log, name, p); }
      if name !in metrics {
        return [];
      }
      ms := Valids(name, metrics[name], now);
      forall p | p !in metrics[name] ensures LatestOf(log, name, p).None? {
        assert !Has(name, p) && Of(log, name, p) == [];
      }
    }

    /** What the loop of LastMetrics has gathered once only the peers in `left` remain. */
    ghost predicate Gathered(ms: seq<Metric>, name: string, peers: set<PeerId>, left: set<PeerId>, now: Time)
      reads this
    {
      && (forall i :: 0 <= i < |ms| ==> ms[i].peer in peers && ms[i].peer !in left)
      && (forall i :: 0 <= i < |ms| ==> LatestOf(log, name, ms[i].peer) == Some(ms[i]) && !ms[i].Discard(now))
      && (forall p :: p in peers && p !in left && LatestOf(log, name, p).Some? ==>
           LatestOf(log, name, p).value.Discard(now) || LatestOf(log, name, p).value in ms)
      && (forall i, j :: 0 <= i < j < |ms| ==> ms[i].peer != ms[j].peer)
    }

    lemma GatherPeer(ms: seq<Metric>, name: string, peers: set<PeerId>, left: set<PeerId>, p: PeerId, now: Time)
      requires Gathered(ms, name, peers, left, now) && p in left && p in peers
      ensures var last := LatestOf(log, name, p);
        Gathered(if last.None? || last.value.Discard(now) then ms else ms + [last.value], name, peers, left - {p}, now)
    {
      hide LatestOf;
      var last := LatestOf(log, name, p);
      if last.Some? {
        assert last.value.peer == p by { LatestIsLast(log, name, p); }
      }
    }

    method Valids(name: string, mbyp: map<PeerId, PeerMetrics>, now: Time) returns (ms: seq<Metric>)
      requires Valid() && name in metrics && mbyp == metrics[name]
      ensures Gathered(ms, name, mbyp.Keys, {}, now)
    {
      hide LatestOf, Of, PeerMetrics.Valid, Gathered;
      ms := [];
      var left := mbyp.Keys;
      assert Gathered(ms, name, mbyp.Keys, left, now) by { NothingGathered(name, left, now); }
      while left != {}
        invariant left <= mbyp.Keys
        invariant Gathered(ms, name, mbyp.Keys, left, now)
        decreases |left|
      {
        var p :| p in left;
        GatherPeer(ms, name, mbyp.Keys, left, p, now);
        left := left - {p};
        BufferLatest(name, p);
        var last := mbyp[p].Latest();
        if last.None? || last.value.Discard(now) {
          continue;
        }
        ms := ms + [last.value];
      }
    }

    lemma NothingGathered(name: string, peers: set<PeerId>, now: Time)
      ensures Gathered([], name, peers, peers, now)
    {
    }
  }
}
