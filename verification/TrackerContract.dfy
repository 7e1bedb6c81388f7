/** What each call of the tracker promises about the entries, spelled out case by case. */
module TrackerContract {
  import opened Types
  import opened TrackerMap
  import opened TrackerMachine
  import opened TrackerSpec

  ghost predicate EntryIs(m: StatusMap, c: Cid, self: PeerId, st: TrackerStatus, now: Time, error: string) {
    c in m && m[c] == PinInfo(c, self, st, now, error)
  }

  ghost predicate SameEntry(m: StatusMap, m': StatusMap, c: Cid) {
    (c in m' <==> c in m) && (c in m ==> m'[c] == m[c])
  }

  ghost predicate OthersKept(m: StatusMap, m': StatusMap, c: Cid) {
    forall x :: x != c ==> SameEntry(m, m', x)
  }

  ghost predicate PinnedIn(d: Daemon, c: Cid) {
    c in d && (d[c] == Direct || d[c] == Recursive)
  }

  /** The daemon has changed at most for `c`. */
  ghost predicate OtherPinsKept(d: Daemon, d': Daemon, c: Cid) {
    forall x :: x != c ==> (x in d' <==> x in d) && (x in d ==> d'[x] == d[x])
  }

  ghost predicate SameQueues(s: State, s': State) {
    s'.self == s.self && s'.capacity == s.capacity && s'.pinCh == s.pinCh && s'.unpinCh == s.unpinCh
  }

  /** What Get reads: an entry, or a new one in status Unpinned. */
  ghost predicate Reads(m: StatusMap, self: PeerId, c: Cid, now: Time, p: PinInfo) {
    p == if c in m then m[c] else PinInfo(c, self, Unpinned, now, "")
  }

  /** setError. */
  ghost predicate Errored(m: StatusMap, m': StatusMap, self: PeerId, c: Cid, error: string, now: Time) {
    && OthersKept(m, m', c)
    && (c !in m ==> EntryIs(m', c, self, UnpinError, now, error))
    && (c in m ==>
          match m[c].status
          case Pinned => EntryIs(m', c, self, PinError, now, error)
          case Pinning => EntryIs(m', c, self, PinError, now, error)
          case PinError => EntryIs(m', c, self, PinError, now, error)
          case Unpinned => EntryIs(m', c, self, UnpinError, now, error)
          case Unpinning => EntryIs(m', c, self, UnpinError, now, error)
          case UnpinError => EntryIs(m', c, self, UnpinError, now, error)
          case Remote => SameEntry(m, m', c)
          case ClusterError => SameEntry(m, m', c)
          case Bug => SameEntry(m, m', c))
  }

  /** A pin() that ends with `out`. */
  ghost predicate Pins(s: State, s': State, c: Cid, out: Outcome, now: Time) {
    && SameQueues(s, s') && OthersKept(s.status, s'.status, c) && OtherPinsKept(s.daemon, s'.daemon, c)
    && (out.Done? ==> EntryIs(s'.status, c, s.self, Pinned, now, "") && PinnedIn(s'.daemon, c))
    && (out.Failed? ==> EntryIs(s'.status, c, s.self, PinError, now, "rpc error"))
    && (PinnedIn(s.daemon, c) || out == Failed(false) ==> s'.daemon == s.daemon)
    && (!PinnedIn(s.daemon, c) && out != Failed(false) ==> c in s'.daemon && s'.daemon[c] == Recursive)
    && s'.trouble == (s.trouble || out.Failed?)
  }

  ghost predicate Unpins(s: State, s': State, c: Cid, out: Outcome, now: Time) {
    && SameQueues(s, s') && OthersKept(s.status, s'.status, c) && OtherPinsKept(s.daemon, s'.daemon, c)
    && (out.Done? ==> c !in s'.status && !PinnedIn(s'.daemon, c))
    && (out.Failed? ==> Errored(s.status, s'.status, s.self, c, "rpc error", now))
    && (!PinnedIn(s.daemon, c) || out == Failed(false) ==> s'.daemon == s.daemon)
    && (out != Failed(false) ==> !PinnedIn(s'.daemon, c))
    && s'.trouble == (s.trouble || out.Failed?)
  }

  /** A Track of an item allocated here is queued, or fails when the queue is full; any other becomes
      Remote, after an unpin if it was Pinned. */
  ghost predicate Tracks(s: State, s': State, arg: CidArg, out: Outcome, now: Time, ok: bool) {
    var c := arg.cid;
    && s'.self == s.self && s'.unpinCh == s.unpinCh && OthersKept(s.status, s'.status, c)
    && (if arg.everywhere || s.self in arg.allocations then
          && s'.daemon == s.daemon && ok == (|s.pinCh| < s.capacity)
          && (ok ==> EntryIs(s'.status, c, s.self, Pinning, now, "") && s'.pinCh == s.pinCh + [arg])
          && (!ok ==> EntryIs(s'.status, c, s.self, PinError, now, "pin queue is full") && s'.pinCh == s.pinCh)
        else
          && ok && EntryIs(s'.status, c, s.self, Remote, now, "") && s'.pinCh == s.pinCh
          && OtherPinsKept(s.daemon, s'.daemon, c)
          && (c in s.status && s.status[c].status == Pinned && out.Done? ==> !PinnedIn(s'.daemon, c))
          && (!(c in s.status && s.status[c].status == Pinned) ==> s'.daemon == s.daemon))
  }

  ghost predicate Untracks(s: State, s': State, c: Cid, now: Time, ok: bool) {
    && s'.self == s.self && s'.pinCh == s.pinCh && s'.daemon == s.daemon && OthersKept(s.status, s'.status, c)
    && ok == (|s.unpinCh| < s.capacity)
    && (ok ==>
         EntryIs(s'.status, c, s.self, Unpinning, now, "") && s'.unpinCh == s.unpinCh + [CidArg(c, [], false)])
    && (!ok ==> EntryIs(s'.status, c, s.self, UnpinError, now, "unpin queue is full") && s'.unpinCh == s.unpinCh)
  }

  /** Recover retries an error entry once and leaves everything else alone. */
  ghost predicate Recovers(s: State, s': State, c: Cid, out: Outcome, now: Time) {
    if c in s.status && s.status[c].status == PinError then Pins(s, s', c, out, now)
    else if c in s.status && s.status[c].status == UnpinError then Unpins(s, s', c, out, now)
    else s' == s
  }

  /** An entry, compared with whether the daemon has the item. */
  ghost predicate SyncedTo(m: StatusMap, m': StatusMap, self: PeerId, c: Cid, pinned: bool, now: Time) {
    if c !in m then
      if pinned then EntryIs(m', c, self, UnpinError, now, "the item is unexpectedly pinned on IPFS") else c !in m'
    else if pinned then
      match m[c].status
      case Pinning => EntryIs(m', c, self, Pinned, now, "")
      case PinError => EntryIs(m', c, self, Pinned, now, "")
      case Unpinning =>
        if now - m[c].ts <= 10.0 then SameEntry(m, m', c)
        else EntryIs(m', c, self, UnpinError, now, "unpinning operation is taking too long")
      case Unpinned => EntryIs(m', c, self, UnpinError, now, "the item is unexpectedly pinned on IPFS")
      case Pinned => SameEntry(m, m', c)
      case UnpinError => SameEntry(m, m', c)
      case Remote => SameEntry(m, m', c)
      case ClusterError => SameEntry(m, m', c)
      case Bug => SameEntry(m, m', c)
    else
      match m[c].status
      case Pinned => EntryIs(m', c, self, PinError, now, "the item is unexpectedly not pinned on IPFS")
      case Pinning =>
        if now - m[c].ts <= 900.0 then SameEntry(m, m', c)
        else EntryIs(m', c, self, PinError, now, "pinning operation is taking too long")
      case Unpinning => c !in m'
      case UnpinError => c !in m'
      case PinError => SameEntry(m, m', c)
      case Unpinned => SameEntry(m, m', c)
      case Remote => SameEntry(m, m', c)
      case ClusterError => SameEntry(m, m', c)
      case Bug => SameEntry(m, m', c)
  }

  /** What a failed SyncAll does to an entry. */
  ghost predicate FailureRecorded(m: StatusMap, m': StatusMap, self: PeerId, now: Time, c: Cid)
    requires c in m
  {
    && m'.Keys == m.Keys
    && match m[c].status
       case Pinned => EntryIs(m', c, self, PinError, now, "rpc error")
       case Pinning => EntryIs(m', c, self, PinError, now, "rpc error")
       case PinError => EntryIs(m', c, self, PinError, now, "rpc error")
       case Unpinned => EntryIs(m', c, self, UnpinError, now, "rpc error")
       case Unpinning => EntryIs(m', c, self, UnpinError, now, "rpc error")
       case UnpinError => EntryIs(m', c, self, UnpinError, now, "rpc error")
       case _ => SameEntry(m, m', c)
  }

  /** SyncAll has something to report about `c`. */
  ghost predicate Noteworthy(m: StatusMap, m': StatusMap, c: Cid) {
    && c in m
    && (c !in m' ==> m[c].status != Unpinned)
    && (c in m' ==> m'[c].status != m[c].status || m'[c].status == PinError || m'[c].status == UnpinError)
  }

  /** One entry for each CID of `cids`, as it is now. */
  ghost predicate EntriesNow(infos: seq<PinInfo>, cids: set<Cid>, m: StatusMap, self: PeerId, now: Time) {
    && (forall i :: 0 <= i < |infos| ==> infos[i].cid in cids && Reads(m, self, infos[i].cid, now, infos[i]))
    && (forall c :: c in cids ==> exists i :: 0 <= i < |infos| && infos[i].cid == c)
    && (forall i, j :: 0 <= i < j < |infos| ==> infos[i].cid != infos[j].cid)
  }

  // ---- the specifications keep these promises ------------------------------------------------------

  lemma PutErrorMeets(m: StatusMap, self: PeerId, c: Cid, error: string, now: Time)
    ensures Errored(m, PutError(m, self, c, error, now), self, c, error, now)
  {
  }

  lemma IpfsMeets(d: Daemon, c: Cid, out: Outcome)
    ensures Holds(d, c) <==> PinnedIn(d, c)
    ensures var d' := IpfsPin(d, c, out);
      && OtherPinsKept(d, d', c) && (PinnedIn(d, c) || out == Failed(false) ==> d' == d)
      && (!PinnedIn(d, c) && out != Failed(false) ==> c in d' && d'[c] == Recursive)
    ensures var d' := IpfsUnpin(d, c, out);
      && OtherPinsKept(d, d', c) && (!PinnedIn(d, c) || out == Failed(false) ==> d' == d)
      && (out != Failed(false) ==> !PinnedIn(d', c))
  {
  }

  lemma PinMeets(s: State, c: Cid, out: Outcome, now: Time)
    ensures Pins(s, PinSpec(s, c, out, now), c, out, now)
  {
    hide PutError, Errored, IpfsPin;
    IpfsMeets(s.daemon, c, out);
    var m := Put(s.status, s.self, c, Pinning, now);
    assert Errored(m, PutError(m, s.self, c, ERR_RPC, now), s.self, c, ERR_RPC, now) by {
      PutErrorMeets(m, s.self, c, ERR_RPC, now);
    }
    FailedPinning(s.status, s.self, c, ERR_RPC, now);
  }

  /** A failure recorded for an entry that has just been set to Pinning. */
  lemma FailedPinning(m: StatusMap, self: PeerId, c: Cid, error: string, now: Time)
    ensures var m' := PutError(Put(m, self, c, Pinning, now), self, c, error, now);
      EntryIs(m', c, self, PinError, now, error) && OthersKept(m, m', c)
  {
  }

  lemma UnpinMeets(s: State, c: Cid, out: Outcome, now: Time)
    ensures Unpins(s, UnpinSpec(s, c, out, now), c, out, now)
  {
    hide PutError, Errored, IpfsUnpin;
    IpfsMeets(s.daemon, c, out);
    PutErrorMeets(s.status, s.self, c, ERR_RPC, now);
    assert out.Failed? ==> OthersKept(s.status, UnpinSpec(s, c, out, now).status, c) by {
      ErroredKeepsOthers(s.status, PutError(s.status, s.self, c, ERR_RPC, now), s.self, c, ERR_RPC, now);
    }
  }

  lemma ErroredKeepsOthers(m: StatusMap, m': StatusMap, self: PeerId, c: Cid, error: string, now: Time)
    requires Errored(m, m', self, c, error, now)
    ensures OthersKept(m, m', c)
  {
  }

  lemma TrackMeets(s: State, arg: CidArg, out: Outcome, now: Time)
    ensures Tracks(s, TrackSpec(s, arg, out, now), arg, out, now,
              arg.everywhere || s.self in arg.allocations ==> |s.pinCh| < s.capacity)
  {
    hide PutError, UnpinSpec;
    if IsRemote(s.self, arg) {
      RemoteMeets(s, arg, out, now);
    } else {
      FailedPinning(s.status, s.self, arg.cid, ERR_PIN_QUEUE, now);
    }
  }

  lemma RemoteMeets(s: State, arg: CidArg, out: Outcome, now: Time)
    requires !arg.everywhere && s.self !in arg.allocations
    ensures Tracks(s, TrackSpec(s, arg, out, now), arg, out, now, true)
  {
    hide UnpinSpec;
    var c := arg.cid;
    UnpinMeets(s, c, out, now);
    var s1 := if StatusOf(s.status, c) == Pinned then UnpinSpec(s, c, out, now) else s;
    assert OthersKept(s.status, s1.status, c);
    var m := Put(s1.status, s.self, c, Remote, now);
    forall x | x != c
      ensures SameEntry(s.status, m, x)
    {
      assert SameEntry(s.status, s1.status, x) && SameEntry(s1.status, m, x);
    }
  }

  lemma UntrackMeets(s: State, c: Cid, now: Time)
    ensures Untracks(s, UntrackSpec(s, c, now), c, now, |s.unpinCh| < s.capacity)
  {
  }

  lemma RecoverMeets(s: State, c: Cid, out: Outcome, now: Time)
    ensures Recovers(s, RecoverSpec(s, c, out, now), c, out, now)
  {
    hide PinSpec, UnpinSpec, Pins, Unpins;
    PinMeets(s, c, out, now);
    UnpinMeets(s, c, out, now);
  }

  /** Every status, both answers, both timeouts. */
  lemma SyncOneMeets(m: StatusMap, self: PeerId, c: Cid, pinned: bool, now: Time)
    ensures var m' := SyncOne(m, self, c, pinned, now);
      SyncedTo(m, m', self, c, pinned, now) && OthersKept(m, m', c)
  {
  }

  /** Sync, with the daemon's answer or without one. */
  lemma SyncMeets(s: State, c: Cid, answer: Option<Daemon>, now: Time)
    ensures var s' := SyncSpec(s, c, answer, now);
      && SameQueues(s, s') && s'.daemon == s.daemon
      && (answer.None? ==> Errored(s.status, s'.status, s.self, c, "rpc error", now))
      && (answer.Some? ==>
            && SyncedTo(s.status, s'.status, s.self, c, PinnedIn(answer.value, c), now)
            && OthersKept(s.status, s'.status, c))
  {
    hide SyncOne, PutError, SyncedTo, Errored;
    if answer.None? {
      PutErrorMeets(s.status, s.self, c, ERR_RPC, now);
    } else {
      SyncOneMeets(s.status, s.self, c, Holds(answer.value, c), now);
      IpfsMeets(answer.value, c, Done);
    }
  }

  /** SyncAll against a listing, for a tracked CID. */
  lemma SyncAllMeets(m: StatusMap, self: PeerId, listing: Daemon, now: Time, c: Cid)
    requires c in m
    ensures var m' := SyncAllMap(m, self, listing, now);
      SyncedTo(m, m', self, c, PinnedIn(listing, c), now)
    ensures forall x :: x in SyncAllMap(m, self, listing, now) ==> x in m
  {
    hide SyncOne;
    SyncOneMeets(m, self, c, Holds(listing, c), now);
    IpfsMeets(listing, c, Done);
    var m', n := SyncAllMap(m, self, listing, now), SyncOne(m, self, c, Holds(listing, c), now);
    assert SameEntry(n, m', c);
  }

  /** In particular SyncAll never removes an entry in status Pinning, whatever the listing. */
  lemma SyncAllKeepsPinning(m: StatusMap, self: PeerId, listing: Daemon, now: Time, c: Cid)
    requires c in m && m[c].status == Pinning
    ensures var m' := SyncAllMap(m, self, listing, now);
      && c in m'
      && (PinnedIn(listing, c) ==> m'[c].status == Pinned)
      && (!PinnedIn(listing, c) && now - m[c].ts <= 900.0 ==> m'[c] == m[c])
      && (!PinnedIn(listing, c) && now - m[c].ts > 900.0 ==> m'[c].status == PinError)
  {
    hide SyncAllMap;
    SyncAllMeets(m, self, listing, now, c);
  }

  /** A failed listing is recorded on every entry. */
  lemma FailAllMeets(m: StatusMap, self: PeerId, now: Time, c: Cid)
    requires c in m
    ensures FailureRecorded(m, PutErrors(m, self, ERR_RPC, now), self, now, c)
  {
  }
}
