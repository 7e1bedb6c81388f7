/** SyncAll on its own, and against the daemon's own pins. */
module Repair {
  import opened Types
  import opened TrackerMap
  import opened TrackerMachine
  import opened PendingWork
  import opened TrackerSpec
  import opened PinTracker

  // ---- SyncAll on its own -----------------------------------------------------------------------

  /** After SyncAll, Pinned entries are listed, removed entries are not, nothing is added. */
  lemma SyncAllSound(m: StatusMap, self: PeerId, listing: Daemon, now: Time, c: Cid)
    requires c in m && m[c].status != Unpinned
    ensures var m' := SyncAllMap(m, self, listing, now);
      && (StatusOf(m', c) == Pinned ==> Holds(listing, c))
      && (c !in m' ==> !Holds(listing, c))
      && (m[c].status == Remote ==> c in m' && m'[c] == m[c])
  {
  }

  lemma SyncOneTwice(m: StatusMap, m': StatusMap, self: PeerId, pinned: bool, now: Time, c: Cid)
    requires c in m && m[c].status != Unpinned
    requires c in SyncOne(m, self, c, pinned, now) && c in m' && m'[c] == SyncOne(m, self, c, pinned, now)[c]
    ensures c in SyncOne(m', self, c, pinned, now) && SyncOne(m', self, c, pinned, now)[c] == m'[c]
  {
  }

  /** A second SyncAll at the same time with the same listing changes nothing, down to the
      timestamps and messages, and reports exactly the entries in an error state. */
  lemma SyncAllIdempotent(m: StatusMap, self: PeerId, listing: Daemon, now: Time)
    requires forall c :: c in m ==> m[c].status != Unpinned
    ensures var m' := SyncAllMap(m, self, listing, now);
      && SyncAllMap(m', self, listing, now) == m'
      && ReportedCids(m', m', m'.Keys) == set c | c in m' && (m'[c].status == PinError || m'[c].status == UnpinError)
  {
    hide SyncOne, SyncAllMap, ReportedCids;
    var m' := SyncAllMap(m, self, listing, now);
    forall c | c in m'
      ensures c in SyncOne(m', self, c, Holds(listing, c), now) && SyncOne(m', self, c, Holds(listing, c), now)[c] == m'[c]
    {
      SyncAllEntry(m, self, listing, now, c);
      SyncOneTwice(m, m', self, Holds(listing, c), now, c);
    }
    SyncAllFixed(m', self, listing, now);
    ErrorsReported(m');
  }

  lemma SyncAllEntry(m: StatusMap, self: PeerId, listing: Daemon, now: Time, c: Cid)
    ensures var m', n := SyncAllMap(m, self, listing, now), SyncOne(m, self, c, Holds(listing, c), now);
      c in m' ==> c in m && c in n && m'[c] == n[c]
  {
    hide SyncOne;
  }

  lemma SyncAllFixed(m: StatusMap, self: PeerId, listing: Daemon, now: Time)
    requires forall c :: c in m ==>
      c in SyncOne(m, self, c, Holds(listing, c), now) && SyncOne(m, self, c, Holds(listing, c), now)[c] == m[c]
    ensures SyncAllMap(m, self, listing, now) == m
  {
    hide SyncOne;
  }

  lemma ErrorsReported(m: StatusMap)
    ensures ReportedCids(m, m, m.Keys) == set c | c in m && (m[c].status == PinError || m[c].status == UnpinError)
  {
  }

  // ---- repair -------------------------------------------------------------------------------------

  predicate Broken(s: State, c: Cid) {
    StatusOf(s.status, c) == PinError || StatusOf(s.status, c) == UnpinError
  }

  /** The entry of `c` and the daemon's pin of `c`. */
  predicate SameCid(s: State, s': State, c: Cid) {
    StatusOf(s'.status, c) == StatusOf(s.status, c) && IpfsStatus(s'.daemon, c) == IpfsStatus(s.daemon, c)
  }

  /** SyncAll with the daemon's own list of recursive pins. */
  function Synced(s: State, now: Time): State {
    s.(status := SyncAllMap(s.status, s.self, RecursivePins(s.daemon), now))
  }

  lemma SyncedEntry(s: State, now: Time, c: Cid)
    requires c in s.status ==> Stable(s.status[c].status)
    ensures var s', listed := Synced(s, now), c in s.daemon && s.daemon[c] == Recursive;
      StatusOf(s'.status, c) ==
        match StatusOf(s.status, c)
        case Pinned => if listed then Pinned else PinError
        case PinError => if listed then Pinned else PinError
        case UnpinError => if listed then UnpinError else Unpinned
        case st => st
    ensures c in Synced(s, now).status <==> StatusOf(Synced(s, now).status, c) != Unpinned
  {
    assert Holds(RecursivePins(s.daemon), c) <==> c in s.daemon && s.daemon[c] == Recursive;
  }
}
