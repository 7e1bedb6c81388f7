/** MapPinTracker in its own, imperative form; no other call runs during these methods. */
module PinTracker {
  import opened Types
  import opened TrackerMap
  import opened TrackerMachine
  import opened TrackerSpec
  import opened TrackerContract
  import opened Reachability

  /** The IPFS daemon behind the connector's RPC methods. `out` decides how a request ends. */
  class IpfsDaemon {
    var pins: Daemon

    constructor ()
      ensures pins == map[]
    {
      pins := map[];
    }

    method Pin(c: Cid, out: Outcome) returns (ok: bool)
      modifies this
      ensures pins == IpfsPin(old(pins), c, out) && ok == out.Done?
      ensures OtherPinsKept(old(pins), pins, c) && (ok ==> PinnedIn(pins, c))
    {
      if out.Effective() && !IpfsStatus(pins, c).IsPinned() {
        pins := pins[c := Recursive];
      }
      ok := out.Done?;
    }

    method Unpin(c: Cid, out: Outcome) returns (ok: bool)
      modifies this
      ensures pins == IpfsUnpin(old(pins), c, out) && ok == out.Done?
      ensures OtherPinsKept(old(pins), pins, c) && (ok ==> !PinnedIn(pins, c))
    {
      if out.Effective() && IpfsStatus(pins, c).IsPinned() {
        pins := pins - {c};
      }
      ok := out.Done?;
    }
  }

  /** The entries SyncAll reports: changed, or in an error state. */
  predicate Reported(m: StatusMap, m': StatusMap, c: Cid) {
    && c in m
    && var st := StatusOf(m', c);
       st != m[c].status || st == UnpinError || st == PinError
  }

  function ReportedCids(m: StatusMap, m': StatusMap, among: set<Cid>): set<Cid> {
    set c | c in among && Reported(m, m', c)
  }

  /** `infos` holds the entry in `m` of exactly the CIDs in `cids`, once each. */
  ghost predicate ReportOf(infos: seq<PinInfo>, cids: set<Cid>, m: StatusMap, self: PeerId, now: Time) {
    && (forall i :: 0 <= i < |infos| ==> infos[i].cid in cids && infos[i] == Lookup(m, self, infos[i].cid, now))
    && (forall c :: c in cids ==> exists i :: 0 <= i < |infos| && infos[i].cid == c)
    && (forall i, j :: 0 <= i < j < |infos| ==> infos[i].cid != infos[j].cid)
  }

  lemma ReportExtend(infos: seq<PinInfo>, cids: set<Cid>, m: StatusMap, self: PeerId, now: Time, c: Cid)
    requires ReportOf(infos, cids, m, self, now) && c !in cids && Lookup(m, self, c, now).cid == c
    ensures ReportOf(infos + [Lookup(m, self, c, now)], cids + {c}, m, self, now)
  {
    var more := infos + [Lookup(m, self, c, now)];
    forall x | x in cids + {c}
      ensures exists i :: 0 <= i < |more| && more[i].cid == x
    {
      if x == c {
        assert more[|infos|].cid == x;
      } else {
        var i :| 0 <= i < |infos| && infos[i].cid == x;
        assert more[i].cid == x;
      }
    }
  }

  lemma ReportedGrows(m: StatusMap, m': StatusMap, among: set<Cid>, c: Cid)
    ensures ReportedCids(m, m', among + {c})
         == if Reported(m, m', c) then ReportedCids(m, m', among) + {c} else ReportedCids(m, m', among)
  {
  }

  /** The state of a SyncAll that has handled the CIDs in `done`. */
  ghost predicate HalfSynced(m0: StatusMap, m1: StatusMap, m: StatusMap, done: set<Cid>) {
    && (forall c :: c in m <==> c in if c in done then m1 else m0)
    && (forall c :: c in m ==> m[c] == if c in done then m1[c] else m0[c])
  }

  /** Syncing `c` reads and writes the entry of `c` only. */
  lemma SyncOneLocal(m0: StatusMap, m: StatusMap, self: PeerId, c: Cid, pinned: bool, now: Time)
    requires c in m0 && c in m && m[c] == m0[c]
    ensures var n0, n := SyncOne(m0, self, c, pinned, now), SyncOne(m, self, c, pinned, now);
      && (c in n <==> c in n0) && (c in n ==> n[c] == n0[c])
  {
  }

  lemma SyncOneFrame(m: StatusMap, self: PeerId, c: Cid, pinned: bool, now: Time)
    requires c in m
    ensures var n := SyncOne(m, self, c, pinned, now);
      && (forall x :: x != c ==> (x in n <==> x in m))
      && (forall x :: x != c && x in m ==> n[x] == m[x])
  {
  }

  lemma SyncNext(m0: StatusMap, m: StatusMap, self: PeerId, listing: Daemon, now: Time, done: set<Cid>, c: Cid)
    requires HalfSynced(m0, SyncAllMap(m0, self, listing, now), m, done) && c in m0 && c !in done
    ensures var m' := SyncOne(m, self, c, Holds(listing, c), now);
      && HalfSynced(m0, SyncAllMap(m0, self, listing, now), m', done + {c})
      && Lookup(m', self, c, now) == Lookup(SyncAllMap(m0, self, listing, now), self, c, now)
  {
    SyncOneLocal(m0, m, self, c, Holds(listing, c), now);
    SyncOneFrame(m, self, c, Holds(listing, c), now);
    HalfGrows(m0, SyncAllMap(m0, self, listing, now), m, SyncOne(m, self, c, Holds(listing, c), now), done, c);
  }

  lemma HalfGrows(m0: StatusMap, m1: StatusMap, m: StatusMap, m': StatusMap, done: set<Cid>, c: Cid)
    requires HalfSynced(m0, m1, m, done)
    requires forall x :: x != c ==> (x in m' <==> x in m)
    requires forall x :: x != c && x in m ==> m'[x] == m[x]
    requires (c in m' <==> c in m1) && (c in m' ==> m'[c] == m1[c])
    ensures HalfSynced(m0, m1, m', done + {c})
  {
    forall x
      ensures x in m' <==> x in (if x in done + {c} then m1 else m0)
      ensures x in m' ==> m'[x] == if x in done + {c} then m1[x] else m0[x]
    {
      assert x != c ==> (x in m <==> x in if x in done then m1 else m0);
    }
  }

  /** The loops of SyncAll: the map is done for `done`, and so is the report. */
  ghost predicate Progress(m0: StatusMap, m1: StatusMap, m: StatusMap, self: PeerId, now: Time,
                           done: set<Cid>, infos: seq<PinInfo>, all: bool) {
    && done <= m0.Keys && HalfSynced(m0, m1, m, done)
    && ReportOf(infos, if all then done else ReportedCids(m0, m1, done), m1, self, now)
  }

  lemma ProgressStarts(m: StatusMap, m1: StatusMap, self: PeerId, now: Time, all: bool)
    ensures Progress(m, m1, m, self, now, {}, [], all)
  {
    assert ReportedCids(m, m1, {}) == {};
  }

  lemma ProgressGrows(m0: StatusMap, m1: StatusMap, m: StatusMap, m': StatusMap, self: PeerId, now: Time,
                      done: set<Cid>, infos: seq<PinInfo>, all: bool, c: Cid)
    requires Progress(m0, m1, m, self, now, done, infos, all) && c in m0 && c !in done
    requires HalfSynced(m0, m1, m', done + {c}) && Lookup(m1, self, c, now).cid == c
    ensures Progress(m0, m1, m', self, now, done + {c},
      if all || Reported(m0, m1, c) then infos + [Lookup(m1, self, c, now)] else infos, all)
  {
    ReportedGrows(m0, m1, done, c);
    if all || Reported(m0, m1, c) {
      ReportExtend(infos, if all then done else ReportedCids(m0, m1, done), m1, self, now, c);
    }
  }

  lemma ProgressEnds(m0: StatusMap, m1: StatusMap, m: StatusMap, self: PeerId, now: Time,
                     done: set<Cid>, infos: seq<PinInfo>, all: bool)
    requires Progress(m0, m1, m, self, now, done, infos, all) && m0.Keys <= done && m1.Keys <= m0.Keys
    ensures m == m1 && ReportOf(infos, if all then m0.Keys else ReportedCids(m0, m1, m0.Keys), m, self, now)
  {
    assert done == m0.Keys;
  }

  /** Every entry the loops look up carries its own CID. */
  lemma FailAllKeyed(m: StatusMap, self: PeerId, now: Time)
    requires forall c :: c in m ==> m[c].cid == c
    ensures var m' := PutErrors(m, self, ERR_RPC, now);
      && m'.Keys == m.Keys
      && (forall c :: c in m' ==> m'[c].cid == c)
      && (forall c :: Lookup(m', self, c, now).cid == c)
  {
  }

  lemma SyncAllKeyed(m: StatusMap, self: PeerId, listing: Daemon, now: Time)
    requires forall c :: c in m ==> m[c].cid == c
    ensures var m' := SyncAllMap(m, self, listing, now);
      && m'.Keys <= m.Keys
      && (forall c :: c in m' ==> m'[c].cid == c)
      && (forall c :: Lookup(m', self, c, now).cid == c)
  {
  }

  lemma FailEntry(m0: StatusMap, m: StatusMap, self: PeerId, now: Time, c: Cid)
    requires c in m0 && c in m && m[c] == m0[c]
    ensures c in PutError(m, self, c, ERR_RPC, now)
    ensures PutError(m, self, c, ERR_RPC, now)[c] == PutErrors(m0, self, ERR_RPC, now)[c]
    ensures forall x :: x != c ==> (x in PutError(m, self, c, ERR_RPC, now) <==> x in m)
    ensures forall x :: x != c && x in m ==> PutError(m, self, c, ERR_RPC, now)[x] == m[x]
  {
  }

  lemma FailNext(m0: StatusMap, m: StatusMap, self: PeerId, now: Time, done: set<Cid>, c: Cid)
    requires HalfSynced(m0, PutErrors(m0, self, ERR_RPC, now), m, done) && c in m0 && c !in done
    ensures var m' := PutError(m, self, c, ERR_RPC, now);
      && HalfSynced(m0, PutErrors(m0, self, ERR_RPC, now), m', done + {c})
      && Lookup(m', self, c, now) == Lookup(PutErrors(m0, self, ERR_RPC, now), self, c, now)
  {
    hide PutError;
    assert c in m && m[c] == m0[c];
    FailEntry(m0, m, self, now, c);
    HalfGrows(m0, PutErrors(m0, self, ERR_RPC, now), m, PutError(m, self, c, ERR_RPC, now), done, c);
  }

  lemma FailStep(m0: StatusMap, m: StatusMap, self: PeerId, now: Time, done: set<Cid>, infos: seq<PinInfo>, c: Cid)
    requires Progress(m0, PutErrors(m0, self, ERR_RPC, now), m, self, now, done, infos, true)
    requires c in m0 && c !in done && forall x :: x in m0 ==> m0[x].cid == x
    ensures var m' := PutError(m, self, c, ERR_RPC, now);
      Progress(m0, PutErrors(m0, self, ERR_RPC, now), m', self, now, done + {c}, infos + [Lookup(m', self, c, now)], true)
  {
    var m1, m' := PutErrors(m0, self, ERR_RPC, now), PutError(m, self, c, ERR_RPC, now);
    FailAllKeyed(m0, self, now);
    FailNext(m0, m, self, now, done, c);
    ProgressGrows(m0, m1, m, m', self, now, done, infos, true, c);
  }

  lemma SyncStep(m0: StatusMap, m: StatusMap, self: PeerId, listing: Daemon, now: Time,
                 done: set<Cid>, infos: seq<PinInfo>, c: Cid)
    requires Progress(m0, SyncAllMap(m0, self, listing, now), m, self, now, done, infos, false)
    requires c in m0 && c !in done && forall x :: x in m0 ==> m0[x].cid == x
    ensures var m' := SyncOne(m, self, c, Holds(listing, c), now);
      var p := Lookup(m', self, c, now);
      var report := m0[c].status != p.status || p.status == UnpinError || p.status == PinError;
      Progress(m0, SyncAllMap(m0, self, listing, now), m', self, now, done + {c},
        if report then infos + [p] else infos, false)
  {
    var m1, m' := SyncAllMap(m0, self, listing, now), SyncOne(m, self, c, Holds(listing, c), now);
    SyncAllKeyed(m0, self, listing, now);
    SyncNext(m0, m, self, listing, now, done, c);
    ProgressGrows(m0, m1, m, m', self, now, done, infos, false, c);
  }

  lemma ReportIsNow(infos: seq<PinInfo>, cids: set<Cid>, m: StatusMap, self: PeerId, now: Time)
    requires ReportOf(infos, cids, m, self, now)
    ensures EntriesNow(infos, cids, m, self, now)
  {
  }

  lemma NoteworthyCids(m: StatusMap, m': StatusMap)
    ensures ReportedCids(m, m', m.Keys) == set c | c in m && Noteworthy(m, m', c)
  {
  }

  lemma EntriesOf(entries: seq<PinInfo>, m: StatusMap, self: PeerId)
    requires ReportOf(entries, m.Keys, m, self, 0.0)
    ensures forall i :: 0 <= i < |entries| ==> entries[i].cid in m && entries[i] == m[entries[i].cid]
    ensures forall i, j :: 0 <= i < j < |entries| ==> entries[i].cid != entries[j].cid
    ensures m.Keys == set i | 0 <= i < |entries| :: entries[i].cid
  {
  }

  class MapPinTracker {
    const peerID: PeerId
    const capacity: nat
    const ipfs: IpfsDaemon
    var status: StatusMap
    var pinCh: seq<CidArg>
    var unpinCh: seq<CidArg>
    ghost var trouble: bool

    constructor (peerID: PeerId, capacity: nat, ipfs: IpfsDaemon)
      ensures this.peerID == peerID && this.capacity == capacity && this.ipfs == ipfs
      ensures Blank(Model()) && !trouble
    {
      this.peerID, this.capacity, this.ipfs := peerID, capacity, ipfs;
      status, pinCh, unpinCh, trouble := map[], [], [], false;
    }

    ghost function Model(): State
      reads this, ipfs
    {
      State(peerID, capacity, status, pinCh, unpinCh, false, false, multiset{}, ipfs.pins, trouble)
    }

    ghost predicate Keyed()
      reads this
    {
      forall c :: c in status ==> status[c].cid == c
    }

    method Set(c: Cid, s: TrackerStatus, now: Time)
      modifies this`status
      ensures status == Put(old(status), peerID, c, s, now)
      ensures OthersKept(old(status), status, c)
      ensures if s == Unpinned then c !in status else EntryIs(status, c, peerID, s, now, "")
    {
      if s == Unpinned {
        status := status - {c};
        return;
      }
      status := status[c := PinInfo(c, peerID, s, now, "")];
    }

    method Get(c: Cid, now: Time) returns (p: PinInfo)
      ensures p == Lookup(status, peerID, c, now) && Reads(status, peerID, c, now, p)
    {
      if c !in status {
        return PinInfo(c, peerID, Unpinned, now, "");
      }
      p := status[c];
    }

    method SetError(c: Cid, error: string, now: Time)
      modifies this`status
      ensures status == PutError(old(status), peerID, c, error, now)
      ensures Errored(old(status), status, peerID, c, error, now)
    {
      PutErrorMeets(status, peerID, c, error, now);
      var p := Get(c, now);
      match p.status {
        case Pinned | Pinning | PinError =>
          status := status[c := PinInfo(c, peerID, PinError, now, error)];
        case Unpinned | Unpinning | UnpinError =>
          status := status[c := PinInfo(c, peerID, UnpinError, now, error)];
        case _ =>
      }
    }

    method Pin(arg: CidArg, out: Outcome, now: Time) returns (ok: bool)
      modifies this, ipfs
      ensures Model() == PinSpec(old(Model()), arg.cid, out, now) && ok == out.Done?
      ensures Pins(old(Model()), Model(), arg.cid, out, now)
    {
      PinMeets(Model(), arg.cid, out, now);
      Set(arg.cid, Pinning, now);
      ok := ipfs.Pin(arg.cid, out);
      trouble := trouble || !ok;
      if !ok {
        SetError(arg.cid, ERR_RPC, now);
        return;
      }
      Set(arg.cid, Pinned, now);
    }

    method Unpin(arg: CidArg, out: Outcome, now: Time) returns (ok: bool)
      modifies this, ipfs
      ensures Model() == UnpinSpec(old(Model()), arg.cid, out, now) && ok == out.Done?
      ensures Unpins(old(Model()), Model(), arg.cid, out, now)
    {
      UnpinMeets(Model(), arg.cid, out, now);
      ok := ipfs.Unpin(arg.cid, out);
      trouble := trouble || !ok;
      if !ok {
        SetError(arg.cid, ERR_RPC, now);
        return;
      }
      Set(arg.cid, Unpinned, now);
    }

    /** The result of the unpin of a CID that became remote is ignored. */
    method Track(arg: CidArg, out: Outcome, now: Time) returns (ok: bool)
      modifies this, ipfs
      ensures Model() == TrackSpec(old(Model()), arg, out, now)
      ensures Tracks(old(Model()), Model(), arg, out, now, ok)
    {
      hide Tracks, Put, PutError, UnpinSpec, Pins, Unpins, Errored, OthersKept, EntryIs;
      TrackMeets(Model(), arg, out, now);
      if IsRemote(peerID, arg) {
        var p := Get(arg.cid, now);
        if p.status == Pinned {
          var _ := Unpin(arg, out, now);
        }
        Set(arg.cid, Remote, now);
        return true;
      }
      Set(arg.cid, Pinning, now);
      if |pinCh| < capacity {
        pinCh := pinCh + [arg];
      } else {
        SetError(arg.cid, ERR_PIN_QUEUE, now);
        trouble := true;
        return false;
      }
      ok := true;
    }

    method Untrack(c: Cid, now: Time) returns (ok: bool)
      modifies this
      ensures Model() == UntrackSpec(old(Model()), c, now)
      ensures Untracks(old(Model()), Model(), c, now, ok)
    {
      hide Untracks, Put, PutError, Errored, OthersKept, EntryIs;
      UntrackMeets(Model(), c, now);
      Set(c, Unpinning, now);
      if |unpinCh| < capacity {
        unpinCh := unpinCh + [ArgFor(c)];
      } else {
        SetError(c, ERR_UNPIN_QUEUE, now);
        trouble := true;
        return false;
      }
      ok := true;
    }

    /** The pin worker until the queue is empty: one daemon call at a time, in order. Each CID ends as
        its last place in the queue says. */
    method PinWorker(outs: seq<Outcome>, now: Time)
      requires |outs| == |pinCh|
      modifies this, ipfs
      ensures Model() == ServePins(old(Model()), outs, now) && pinCh == []
      ensures forall i :: 0 <= i < |outs| && LastInQueue(old(pinCh), i, old(pinCh)[i].cid) ==>
        PinServed(Model(), old(pinCh)[i].cid, outs[i])
    {
      var i := 0;
      ghost var q, before := pinCh, Model();
      while pinCh != []
        invariant 0 <= i <= |outs| && |outs[i..]| == |pinCh|
        invariant ServePins(Model(), outs[i..], now) == ServePins(before, outs, now)
        decreases |pinCh|
      {
        var p := pinCh[0];
        pinCh := pinCh[1..];
        var _ := Pin(p, outs[i], now);
        assert outs[i..][1..] == outs[i + 1..];
        i := i + 1;
      }
      forall j | 0 <= j < |outs| && LastInQueue(q, j, q[j].cid)
        ensures PinServed(Model(), q[j].cid, outs[j])
      {
        PinWorkerServes(before, outs, now, q[j].cid, j);
      }
    }

    method UnpinWorker(outs: seq<Outcome>, now: Time)
      requires |outs| == |unpinCh|
      modifies this, ipfs
      ensures Model() == ServeUnpins(old(Model()), outs, now) && unpinCh == []
      ensures forall i :: 0 <= i < |outs| && LastInQueue(old(unpinCh), i, old(unpinCh)[i].cid) ==>
        UnpinServed(old(Model()), Model(), old(unpinCh)[i].cid, outs[i])
    {
      var i := 0;
      ghost var q, before := unpinCh, Model();
      while unpinCh != []
        invariant 0 <= i <= |outs| && |outs[i..]| == |unpinCh|
        invariant ServeUnpins(Model(), outs[i..], now) == ServeUnpins(before, outs, now)
        decreases |unpinCh|
      {
        var p := unpinCh[0];
        unpinCh := unpinCh[1..];
        var _ := Unpin(p, outs[i], now);
        assert outs[i..][1..] == outs[i + 1..];
        i := i + 1;
      }
      forall j | 0 <= j < |outs| && LastInQueue(q, j, q[j].cid)
        ensures UnpinServed(before, Model(), q[j].cid, outs[j])
      {
        UnpinWorkerServes(before, outs, now, q[j].cid, j);
      }
    }

    method StatusAll() returns (pins: seq<PinInfo>)
      requires Keyed()
      ensures ReportOf(pins, status.Keys, status, peerID, 0.0)
      ensures EntriesNow(pins, status.Keys, status, peerID, 0.0)
    {
      pins := [];
      var left := status.Keys;
      while left != {}
        invariant left <= status.Keys && ReportOf(pins, status.Keys - left, status, peerID, 0.0)
        decreases |left|
      {
        var c :| c in left;
        ReportExtend(pins, status.Keys - left, status, peerID, 0.0, c);
        assert status.Keys - left + {c} == status.Keys - (left - {c});
        pins := pins + [status[c]];
        left := left - {c};
      }
      assert status.Keys - left == status.Keys;
      ReportIsNow(pins, status.Keys, status, peerID, 0.0);
    }

    method SyncStatus(c: Cid, ips: IpfsPinStatus, now: Time) returns (p: PinInfo)
      modifies this`status
      ensures status == SyncOne(old(status), peerID, c, ips.IsPinned(), now)
      ensures SyncedTo(old(status), status, peerID, c, ips == Direct || ips == Recursive, now)
      ensures OthersKept(old(status), status, c)
      ensures p == Lookup(status, peerID, c, now) && Reads(status, peerID, c, now, p)
    {
      hide SyncedTo, OthersKept, Errored, EntryIs;
      SyncOneMeets(status, peerID, c, ips.IsPinned(), now);
      p := Get(c, now);
      if ips.IsPinned() {
        match p.status {
          case Pinning | PinError => Set(c, Pinned, now);
          case Unpinning =>
            if now - p.ts > UNPINNING_TIMEOUT {
              SetError(c, ERR_UNPINNING_TIMEOUT, now);
            }
          case Unpinned => SetError(c, ERR_PINNED, now);
          case _ =>
        }
      } else {
        match p.status {
          case Pinned => SetError(c, ERR_UNPINNED, now);
          case Pinning =>
            if now - p.ts > PINNING_TIMEOUT {
              SetError(c, ERR_PINNING_TIMEOUT, now);
            }
          case Unpinning | UnpinError => Set(c, Unpinned, now);
          case _ =>
        }
      }
      p := Get(c, now);
    }

    method Sync(c: Cid, answer: Option<Daemon>, now: Time) returns (p: PinInfo, ok: bool)
      modifies this
      ensures Model() == SyncSpec(old(Model()), c, answer, now)
      ensures SameQueues(old(Model()), Model()) && ipfs.pins == old(ipfs.pins)
      ensures answer.None? ==> Errored(old(status), status, peerID, c, "rpc error", now)
      ensures answer.Some? ==>
        SyncedTo(old(status), status, peerID, c, PinnedIn(answer.value, c), now) && OthersKept(old(status), status, c)
      ensures p == Lookup(status, peerID, c, now) && Reads(status, peerID, c, now, p) && ok == answer.Some?
    {
      hide SyncedTo, OthersKept, Errored, EntryIs;
      SyncMeets(Model(), c, answer, now);
      if answer.None? {
        SetError(c, ERR_RPC, now);
        trouble := true;
        p := Get(c, now);
        return p, false;
      }
      p := SyncStatus(c, IpfsStatus(answer.value, c), now);
      ok := true;
    }

    method Recover(c: Cid, out: Outcome, now: Time) returns (p: PinInfo, ok: bool)
      modifies this, ipfs
      ensures Model() == RecoverSpec(old(Model()), c, out, now)
      ensures Recovers(old(Model()), Model(), c, out, now)
      ensures p == Lookup(status, peerID, c, now) && Reads(status, peerID, c, now, p)
      ensures ok == (out.Done? || !(StatusOf(old(status), c) in {PinError, UnpinError}))
    {
      hide Recovers, Pins, Unpins;
      RecoverMeets(Model(), c, out, now);
      p := Get(c, now);
      ok := true;
      if p.status != PinError && p.status != UnpinError {
        return;
      }
      if p.status == PinError {
        ok := Pin(ArgFor(c), out, now);
      } else {
        ok := Unpin(ArgFor(c), out, now);
      }
      p := Get(c, now);
    }

    /** `listing` is None when the daemon cannot be contacted: then every entry goes to an error
        state and is reported. Otherwise each tracked CID is synced on its own. */
    method SyncAll(listing: Option<Daemon>, now: Time) returns (infos: seq<PinInfo>, ok: bool)
      requires Keyed()
      modifies this`status, this`trouble
      ensures Keyed() && ok == listing.Some? && trouble == (old(trouble) || listing.None?)
      ensures listing.None? ==>
        && status == PutErrors(old(status), peerID, ERR_RPC, now)
        && ReportOf(infos, old(status).Keys, status, peerID, now)
      ensures listing.Some? ==>
        && status == SyncAllMap(old(status), peerID, listing.value, now)
        && ReportOf(infos, ReportedCids(old(status), status, old(status).Keys), status, peerID, now)
      ensures listing.None? ==> EntriesNow(infos, old(status).Keys, status, peerID, now)
      ensures listing.None? ==>
        forall c :: c in old(status) ==> FailureRecorded(old(status), status, peerID, now, c)
      ensures listing.Some? ==>
        && (forall c :: c in old(status) ==> SyncedTo(old(status), status, peerID, c, PinnedIn(listing.value, c), now))
        && status.Keys <= old(status).Keys
        && EntriesNow(infos, (set c | c in old(status) && Noteworthy(old(status), status, c)), status, peerID, now)
    {
      hide PutErrors, SyncAllMap, ReportOf, ReportedCids, EntriesNow, Noteworthy, SyncedTo, FailureRecorded, PinnedIn;
      ghost var m0 := status;
      ok := listing.Some?;
      if listing.None? {
        infos := FailAll(now);
        trouble := true;
        ReportIsNow(infos, m0.Keys, status, peerID, now);
        forall c | c in m0 { FailAllMeets(m0, peerID, now, c); }
      } else {
        infos := SyncListed(listing.value, now);
        ReportIsNow(infos, ReportedCids(m0, status, m0.Keys), status, peerID, now);
        NoteworthyCids(m0, status);
        forall c | c in m0 { SyncAllMeets(m0, peerID, listing.value, now, c); }
        SyncAllKeys(m0, peerID, listing.value, now);
      }
    }

    method FailAll(now: Time) returns (infos: seq<PinInfo>)
      requires Keyed()
      modifies this`status
      ensures Keyed() && status == PutErrors(old(status), peerID, ERR_RPC, now)
      ensures ReportOf(infos, old(status).Keys, status, peerID, now)
    {
      hide PutErrors, PutError, Lookup, Progress, ReportOf;
      infos := [];
      ghost var m0, m1 := status, PutErrors(status, peerID, ERR_RPC, now);
      var left := status.Keys;
      ghost var done: set<Cid> := {};
      FailAllKeyed(m0, peerID, now);
      ProgressStarts(m0, m1, peerID, now, true);
      while left != {}
        invariant left !! done && left + done == m0.Keys
        invariant Progress(m0, m1, status, peerID, now, done, infos, true)
        decreases |left|
      {
        var c :| c in left;
        FailStep(m0, status, peerID, now, done, infos, c);
        SetError(c, ERR_RPC, now);
        var p := Get(c, now);
        infos := infos + [p];
        left, done := left - {c}, done + {c};
      }
      ProgressEnds(m0, m1, status, peerID, now, done, infos, true);
    }

    method SyncListed(listing: Daemon, now: Time) returns (infos: seq<PinInfo>)
      requires Keyed()
      modifies this`status
      ensures Keyed() && status == SyncAllMap(old(status), peerID, listing, now)
      ensures ReportOf(infos, ReportedCids(old(status), status, old(status).Keys), status, peerID, now)
    {
      hide SyncAllMap, SyncOne, Lookup, Progress, ReportOf;
      infos := [];
      ghost var m0, m1 := status, SyncAllMap(status, peerID, listing, now);
      ghost var done: set<Cid> := {};
      SyncAllKeyed(m0, peerID, listing, now);
      ProgressStarts(m0, m1, peerID, now, false);
      var entries := StatusAll();
      EntriesOf(entries, m0, peerID);
      var i := 0;
      while i < |entries|
        invariant 0 <= i <= |entries|
        invariant forall j :: 0 <= j < |entries| ==> (entries[j].cid in done <==> j < i)
        invariant Progress(m0, m1, status, peerID, now, done, infos, false)
      {
        var orig := entries[i];
        var c := orig.cid;
        SyncStep(m0, status, peerID, listing, now, done, infos, c);
        var p := SyncStatus(c, IpfsStatus(listing, c), now);
        if orig.status != p.status || p.status == UnpinError || p.status == PinError {
          infos := infos + [p];
        }
        done := done + {c};
        i := i + 1;
      }
      ProgressEnds(m0, m1, status, peerID, now, done, infos, false);
    }
  }

  // ---- SyncAll is a run of the machine as well -----------------------------------------------------

  lemma NothingApplied(m: StatusMap, self: PeerId, now: Time)
    ensures ApplyUpdate(m, self, NoUpdate, now) == m
  {
  }

  /** One step of a SyncAll. */
  lemma SyncAllStep(s: State, base: multiset<Thread>, t: Thread, env: Env, k: Continuation, u: Update, end: State)
    requires t.SyncAllCall? || t.SyncAllList? || t.SyncAllNext? || t.SyncAllAct?
    requires t.SyncAllList? ==> Enumerates(env.order, s.status.Keys)
    requires s.threads == base + multiset{t} && k == Next(s, t, env) && u == UpdateOf(t, env)
    requires Reaches(s.(threads := base + k.Threads(), status := ApplyUpdate(s.status, s.self, u, env.now),
                        trouble := s.trouble || (t.SyncAllCall? && env.answer.None?)), end)
    ensures Reaches(s, end)
  {
    hide ApplyUpdate, Next, UpdateOf, Reaches, Continuation.Threads;
    assert s.threads - multiset{t} == base;
    StepThenReaches(s, Run(t, env), end);
  }

  lemma SyncAllNexts(s: State, cids: seq<Cid>, listing: Daemon, env: Env)
    ensures Next(s, SyncAllNext(cids, listing), env)
         == if cids == [] then Ends
            else Becomes(SyncAllAct(cids[0], EntryDecision(s, cids[0], listing, env.now), cids[1..], listing))
  {
    hide Lookup, SyncDecision, Holds;
  }

  function EntryDecision(s: State, c: Cid, listing: Daemon, now: Time): Decision {
    SyncDecision(Lookup(s.status, s.self, c, now), Holds(listing, c), now)
  }

  /** The two steps about `cids[0]`. */
  lemma SyncAllSteps(s: State, base: multiset<Thread>, cids: seq<Cid>, listing: Daemon, now: Time, end: State)
    requires cids != [] && s.threads == base + multiset{SyncAllNext(cids, listing)}
    requires Reaches(s.(status := SyncOne(s.status, s.self, cids[0], Holds(listing, cids[0]), now),
                        threads := base + multiset{SyncAllNext(cids[1..], listing)}), end)
    ensures Reaches(s, end)
  {
    hide Reaches, SyncDecision, Lookup, ApplyUpdate, Next, DecisionUpdate;
    var env := Env(Done, None, [], now);
    var d := EntryDecision(s, cids[0], listing, now);
    var u := SyncAllAct(cids[0], d, cids[1..], listing);
    var s1 := s.(threads := base + multiset{u});
    SyncAllActs(s1, cids[0], d, cids[1..], listing, env);
    SyncAllStep(s1, base, u, env, Becomes(SyncAllNext(cids[1..], listing)), DecisionUpdate(cids[0], d), end);
    NothingApplied(s.status, s.self, now);
    SyncAllNexts(s, cids, listing, env);
    SyncAllStep(s, base, SyncAllNext(cids, listing), env, Becomes(u), NoUpdate, end);
  }

  lemma SyncAllActs(s: State, c: Cid, d: Decision, cids: seq<Cid>, listing: Daemon, env: Env)
    ensures Next(s, SyncAllAct(c, d, cids, listing), env) == Becomes(SyncAllNext(cids, listing))
  {
  }

  lemma {:induction false} SyncAllPhase(s: State, base: multiset<Thread>, cids: seq<Cid>, listing: Daemon, now: Time,
                                        m0: StatusMap, done: set<Cid>)
    requires s.threads == base + multiset{SyncAllNext(cids, listing)}
    requires HalfSynced(m0, SyncAllMap(m0, s.self, listing, now), s.status, done)
    requires Enumerates(cids, m0.Keys - done)
    ensures Reaches(s, s.(status := SyncAllMap(m0, s.self, listing, now), threads := base))
    decreases |cids|
  {
    hide Reaches, SyncAllMap, SyncOne, ApplyUpdate, HalfSynced, Next;
    var end := s.(status := SyncAllMap(m0, s.self, listing, now), threads := base);
    if cids == [] {
      forall c | c in m0
        ensures c in done
      {
        assert c in cids <==> c in m0.Keys - done;
      }
      var env := Env(Done, None, [], now);
      NothingApplied(s.status, s.self, now);
      SyncAllNexts(s, cids, listing, env);
      SyncAllKeys(m0, s.self, listing, now);
      HalfIsAll(m0, end.status, s.status, done);
      ReachesSelf(end);
      assert base + multiset{} == base;
      SyncAllStep(s, base, SyncAllNext([], listing), env, Ends, NoUpdate, end);
    } else {
      var c := cids[0];
      var next := s.(status := SyncOne(s.status, s.self, c, Holds(listing, c), now),
                     threads := base + multiset{SyncAllNext(cids[1..], listing)});
      assert c in cids;
      SyncNext(m0, s.status, s.self, listing, now, done, c);
      EnumeratesRest(cids, m0.Keys, done);
      SyncAllPhase(next, base, cids[1..], listing, now, m0, done + {c});
      SyncAllSteps(s, base, cids, listing, now, end);
    }
  }

  lemma EnumeratesRest(cids: seq<Cid>, all: set<Cid>, done: set<Cid>)
    requires cids != [] && Enumerates(cids, all - done)
    ensures Enumerates(cids[1..], all - (done + {cids[0]}))
  {
    forall x
      ensures x in cids[1..] <==> x in all - (done + {cids[0]})
    {
      assert x in cids <==> x in all - done;
      assert cids == [cids[0]] + cids[1..];
      assert cids[0] !in cids[1..];
    }
  }

  lemma SyncAllKeys(m: StatusMap, self: PeerId, listing: Daemon, now: Time)
    ensures SyncAllMap(m, self, listing, now).Keys <= m.Keys
  {
  }

  lemma HalfIsAll(m0: StatusMap, m1: StatusMap, m: StatusMap, done: set<Cid>)
    requires HalfSynced(m0, m1, m, done) && m0.Keys <= done && m1.Keys <= m0.Keys
    ensures m == m1
  {
  }

  lemma HalfIsNone(m0: StatusMap, m1: StatusMap)
    ensures HalfSynced(m0, m1, m0, {})
  {
  }

  /** SyncAll, run alone. */
  lemma SyncAllIsRun(s: State, listing: Daemon, now: Time)
    ensures Reaches(Add(s, SyncAllCall), s.(status := SyncAllMap(s.status, s.self, listing, now)))
  {
    hide Reaches, SyncAllMap, HalfSynced, ApplyUpdate;
    var order := EnumerationExists(s.status.Keys);
    var env := Env(Done, Some(listing), order, now);
    var end := s.(status := SyncAllMap(s.status, s.self, listing, now));
    HalfIsNone(s.status, SyncAllMap(s.status, s.self, listing, now));
    assert s.status.Keys - {} == s.status.Keys;
    SyncAllPhase(Add(s, SyncAllNext(order, listing)), s.threads, order, listing, now, s.status, {});
    NothingApplied(s.status, s.self, now);
    SyncAllStep(Add(s, SyncAllList(listing)), s.threads, SyncAllList(listing), env,
                Becomes(SyncAllNext(order, listing)), NoUpdate, end);
    SyncAllStep(Add(s, SyncAllCall), s.threads, SyncAllCall, env, Becomes(SyncAllList(listing)), NoUpdate, end);
  }

  lemma FailedSyncAllIsRun(s: State, now: Time)
    ensures Reaches(Add(s, SyncAllCall), s.(status := PutErrors(s.status, s.self, ERR_RPC, now), trouble := true))
  {
    hide Reaches, PutErrors;
    var end := s.(status := PutErrors(s.status, s.self, ERR_RPC, now), trouble := true);
    ReachesSelf(end);
    assert s.threads + multiset{} == s.threads;
    SyncAllStep(Add(s, SyncAllCall), s.threads, SyncAllCall, Env(Done, None, [], now), Ends, FailAll, end);
  }
}
