/** Operations of the consensus log (log_op.go) and what replaying them means. */
module LogReplay {
  import opened Types
  import opened SharedState

  datatype LogOp =
    | PinOp(arg: CidArg)
    | UnpinOp(arg: CidArg)
    | AddPeerOp(addr: Multiaddr)
    | RmPeerOp(addr: Multiaddr)
    | UnknownOp(typ: int)

  /** What every peer derives from the log. */
  datatype Replica = Replica(pins: PinMap, peers: PeerMap)

  datatype TrackerCall = CallTrack(arg: CidArg) | CallUntrack(c: Cid)

  /** One operation; None is the panic on an RmPeer address without a peer ID. */
  function Apply(op: LogOp, r: Replica): Option<Replica> {
    match op
    case PinOp(arg) => Some(r.(pins := r.pins[arg.cid := arg]))
    case UnpinOp(arg) => Some(r.(pins := r.pins - {arg.cid}))
    case AddPeerOp(addr) =>
      if addr.peer.None? then Some(r) else Some(r.(peers := r.peers[addr.peer.value := addr]))
    case RmPeerOp(addr) =>
      if addr.peer.None? then None else Some(r.(peers := r.peers - {addr.peer.value}))
    case UnknownOp(_) => Some(r)
  }

  function CallsOf(op: LogOp): seq<TrackerCall> {
    match op
    case PinOp(arg) => [CallTrack(arg)]
    case UnpinOp(arg) => [CallUntrack(arg.cid)]
    case _ => []
  }

  /** A peer applying the log: its state, its peer manager, the calls its tracker received. */
  class Node {
    const state: MapState
    const pm: PeerManager
    var calls: seq<TrackerCall>

    constructor (state: MapState, pm: PeerManager)
      ensures this.state == state && this.pm == pm && calls == []
    {
      this.state, this.pm, calls := state, pm, [];
    }

    function Model(): Replica
      reads this, state, pm
    {
      Replica(state.pinMap, pm.peermap)
    }

    method ApplyTo(op: LogOp) returns (panicked: bool)
      modifies this, state, pm
      ensures panicked <==> Apply(op, old(Model())).None?
      ensures !panicked ==> Some(Model()) == Apply(op, old(Model())) && calls == old(calls) + CallsOf(op)
      ensures panicked <==> op.RmPeerOp? && op.addr.peer.None?
      ensures op.PinOp? ==> state.pinMap == old(state.pinMap)[op.arg.cid := op.arg]
      ensures op.PinOp? ==> calls == old(calls) + [CallTrack(op.arg)] && pm.peermap == old(pm.peermap)
      ensures op.UnpinOp? ==> state.pinMap == old(state.pinMap) - {op.arg.cid}
      ensures op.UnpinOp? ==> calls == old(calls) + [CallUntrack(op.arg.cid)] && pm.peermap == old(pm.peermap)
      ensures !op.PinOp? && !op.UnpinOp? ==> state.pinMap == old(state.pinMap) && calls == old(calls)
      ensures op.AddPeerOp? && op.addr.peer.Some? ==> pm.peermap == old(pm.peermap)[op.addr.peer.value := op.addr]
      ensures op.RmPeerOp? && op.addr.peer.Some? ==> pm.peermap == old(pm.peermap) - {op.addr.peer.value}
      ensures op.UnknownOp? || (op.AddPeerOp? && op.addr.peer.None?) ==> pm.peermap == old(pm.peermap)
    {
      panicked := false;
      match op {
        case PinOp(arg) =>
          state.Add(arg);
          calls := calls + [CallTrack(arg)];
        case UnpinOp(arg) =>
          state.Rm(arg.cid);
          calls := calls + [CallUntrack(arg.cid)];
        case AddPeerOp(addr) =>
          var _ := pm.AddPeer(addr);
        case RmPeerOp(addr) =>
          if addr.peer.None? {
            return true;
          }
          pm.RmPeer(addr.peer.value);
        case UnknownOp(_) =>
      }
    }
  }

  function Replay(log: seq<LogOp>, r: Replica): Option<Replica> {
    if log == [] then Some(r)
    else
      var before := Replay(log[..|log| - 1], r);
      if before.None? then None else Apply(log[|log| - 1], before.value)
  }

  // ---- last writer wins -------------------------------------------------------------------------

  /** What an operation overwrites. */
  datatype Key = OnCid(c: Cid) | OnPeer(p: PeerId) | Nothing

  function KeyOf(op: LogOp): Key {
    match op
    case PinOp(arg) => OnCid(arg.cid)
    case UnpinOp(arg) => OnCid(arg.cid)
    case AddPeerOp(addr) => if addr.peer.Some? then OnPeer(addr.peer.value) else Nothing
    case RmPeerOp(addr) => if addr.peer.Some? then OnPeer(addr.peer.value) else Nothing
    case UnknownOp(_) => Nothing
  }

  predicate Panics(op: LogOp) {
    op.RmPeerOp? && op.addr.peer.None?
  }

  ghost predicate AnyPanics(log: seq<LogOp>) {
    exists i :: 0 <= i < |log| && Panics(log[i])
  }

  function LastOn(log: seq<LogOp>, k: Key): Option<LogOp> {
    if log == [] then None
    else if KeyOf(log[|log| - 1]) == k then Some(log[|log| - 1])
    else LastOn(log[..|log| - 1], k)
  }

  function Entry<K, V>(m: map<K, V>, k: K): Option<V> {
    if k in m then Some(m[k]) else None
  }

  function PinAfter(last: Option<LogOp>, before: Option<CidArg>): Option<CidArg> {
    if last.None? then before else if last.value.PinOp? then Some(last.value.arg) else None
  }

  function PeerAfter(last: Option<LogOp>, before: Option<Multiaddr>): Option<Multiaddr> {
    if last.None? then before else if last.value.AddPeerOp? then Some(last.value.addr) else None
  }

  /** Replay panics if and only if some operation does; otherwise every CID and every peer has the
      effect of the last operation on it, and the operations on peers and CIDs do not interfere. */
  lemma {:induction false} LastWriterWins(log: seq<LogOp>, r: Replica, c: Cid, p: PeerId)
    ensures Replay(log, r).None? <==> AnyPanics(log)
    ensures Replay(log, r).Some? ==>
      && Entry(Replay(log, r).value.pins, c) == PinAfter(LastOn(log, OnCid(c)), Entry(r.pins, c))
      && Entry(Replay(log, r).value.peers, p) == PeerAfter(LastOn(log, OnPeer(p)), Entry(r.peers, p))
    decreases |log|
  {
    if log != [] {
      var front, last := log[..|log| - 1], log[|log| - 1];
      LastWriterWins(front, r, c, p);
      assert forall i :: 0 <= i < |front| ==> front[i] == log[i];
      if Panics(last) {
        assert Panics(log[|log| - 1]);
      }
    }
  }

  /** The address "/ipfs/<pid>". */
  function IdAddr(pid: PeerId): Multiaddr {
    Multiaddr("/ipfs/" + pid, Some(pid))
  }

  /** peers() lists the peer itself if and only if the last operation on it, if any, adds it. */
  lemma ListsItself(log: seq<LogOp>, r: Replica, self: PeerId, peers: seq<PeerId>)
    requires self in r.peers && !AnyPanics(log)
    requires Replay(log, r).Some? ==> Enumerates(peers, Replay(log, r).value.peers.Keys)
    ensures Replay(log, r).Some?
    ensures self in peers <==> LastOn(log, OnPeer(self)).None? || LastOn(log, OnPeer(self)).value.AddPeerOp?
  {
    LastWriterWins(log, r, "", self);
    assert self in peers <==> self in Replay(log, r).value.peers.Keys;
  }

  /** Removing the peer is such a log. */
  lemma RemovedIsNotListed(r: Replica, self: PeerId)
    requires self in r.peers
    ensures var log := [RmPeerOp(IdAddr(self))];
      Replay(log, r).Some? && self !in Replay(log, r).value.peers
  {
    var log := [RmPeerOp(IdAddr(self))];
    assert log[..0] == [];
    LastWriterWins(log, r, "", self);
    assert LastOn(log, OnPeer(self)) == Some(log[0]);
  }

  // ---- compaction ---------------------------------------------------------------------------------

  /** The log without the operations that are not kept. */
  function Select(log: seq<LogOp>, keep: seq<bool>): seq<LogOp>
    requires |keep| == |log|
  {
    if log == [] then []
    else
      var n := |log| - 1;
      Select(log[..n], keep[..n]) + if keep[n] then [log[n]] else []
  }

  /** Overwritten by a later operation on the same CID or peer, or without effect at all. */
  ghost predicate Droppable(log: seq<LogOp>, i: nat)
    requires i < |log|
  {
    if KeyOf(log[i]) == Nothing then !Panics(log[i])
    else exists j :: i < j < |log| && KeyOf(log[j]) == KeyOf(log[i])
  }

  lemma {:induction false} SelectLast(log: seq<LogOp>, keep: seq<bool>, later: set<Key>, k: Key)
    requires |keep| == |log| && k !in later && k != Nothing
    requires forall i :: 0 <= i < |log| && !keep[i] ==> KeyOf(log[i]) in later || Droppable(log, i)
    ensures LastOn(Select(log, keep), k) == LastOn(log, k)
    decreases |log|
  {
    if log != [] {
      var n := |log| - 1;
      var front, kept, last := log[..n], keep[..n], log[n];
      if KeyOf(last) == k {
        assert keep[n];
        assert Select(log, keep)[|Select(log, keep)| - 1] == last;
      } else {
        forall i | 0 <= i < n && !kept[i]
          ensures KeyOf(front[i]) in later + {KeyOf(last)} || Droppable(front, i)
        {
          assert KeyOf(log[i]) in later || Droppable(log, i);
          if KeyOf(log[i]) != Nothing && Droppable(log, i) {
            var j :| i < j < |log| && KeyOf(log[j]) == KeyOf(log[i]);
            assert j < n ==> KeyOf(front[j]) == KeyOf(front[i]);
          }
        }
        SelectLast(front, kept, later + {KeyOf(last)}, k);
        if keep[n] {
          assert Select(log, keep)[..|Select(log, keep)| - 1] == Select(front, kept);
        } else {
          assert Select(log, keep) == Select(front, kept);
        }
      }
    }
  }

  lemma {:induction false} SelectPanics(log: seq<LogOp>, keep: seq<bool>)
    requires |keep| == |log| && forall i :: 0 <= i < |log| && !keep[i] ==> !Panics(log[i])
    ensures AnyPanics(log) <==> AnyPanics(Select(log, keep))
    decreases |log|
  {
    if log != [] {
      var n := |log| - 1;
      var front, less := log[..n], Select(log[..n], keep[..n]);
      SelectPanics(front, keep[..n]);
      var all := Select(log, keep);
      assert forall i :: 0 <= i < n ==> front[i] == log[i];
      assert forall i :: 0 <= i < |less| ==> less[i] == all[i];
      if i :| 0 <= i < |log| && Panics(log[i]) {
        if i == n {
          assert Panics(all[|less|]);
        } else {
          assert Panics(front[i]);
          var j :| 0 <= j < |less| && Panics(less[j]);
          assert Panics(all[j]);
        }
      }
      if i :| 0 <= i < |all| && Panics(all[i]) {
        if i == |less| {
          assert Panics(log[n]);
        } else {
          assert Panics(less[i]);
          var j :| 0 <= j < n && Panics(front[j]);
          assert Panics(log[j]);
        }
      }
    }
  }

  /** Dropping any of the superseded operations preserves the outcome of every replay. */
  lemma CompactionPreservesReplay(log: seq<LogOp>, keep: seq<bool>, r: Replica)
    requires |keep| == |log| && forall i :: 0 <= i < |log| && !keep[i] ==> Droppable(log, i)
    ensures Replay(Select(log, keep), r) == Replay(log, r)
  {
    var less := Select(log, keep);
    SelectPanics(log, keep);
    LastWriterWins(log, r, "", "");
    LastWriterWins(less, r, "", "");
    assert Replay(log, r).None? <==> Replay(less, r).None?;
    if Replay(log, r).Some? {
      forall c
        ensures Entry(Replay(log, r).value.pins, c) == Entry(Replay(less, r).value.pins, c)
      {
        LastWriterWins(log, r, c, "");
        LastWriterWins(less, r, c, "");
        SelectLast(log, keep, {}, OnCid(c));
      }
      forall p
        ensures Entry(Replay(log, r).value.peers, p) == Entry(Replay(less, r).value.peers, p)
      {
        LastWriterWins(log, r, "", p);
        LastWriterWins(less, r, "", p);
        SelectLast(log, keep, {}, OnPeer(p));
      }
    }
    SameReplay(Replay(log, r), Replay(less, r));
  }

  lemma SameMap<K(!new), V>(m: map<K, V>, n: map<K, V>)
    requires forall k :: Entry(m, k) == Entry(n, k)
    ensures m == n
  {
    assert forall k :: k in m <==> k in n by {
      forall k ensures k in m <==> k in n { assert Entry(m, k) == Entry(n, k); }
    }
    assert forall k :: k in m ==> m[k] == n[k] by {
      forall k | k in m ensures m[k] == n[k] { assert Entry(m, k) == Entry(n, k); }
    }
  }

  lemma SameReplay(a: Option<Replica>, b: Option<Replica>)
    requires a.None? <==> b.None?
    requires a.Some? ==> forall c :: Entry(a.value.pins, c) == Entry(b.value.pins, c)
    requires a.Some? ==> forall p :: Entry(a.value.peers, p) == Entry(b.value.peers, p)
    ensures a == b
  {
    if a.Some? {
      SameMap(a.value.pins, b.value.pins);
      SameMap(a.value.peers, b.value.peers);
    }
  }

  /** An earlier copy of an operation can be dropped when a later copy follows. */
  lemma DropEarlierCopy(log: seq<LogOp>, op: LogOp, rest: seq<LogOp>, r: Replica)
    requires KeyOf(op) != Nothing && op in rest
    ensures Replay(log + [op] + rest, r) == Replay(log + rest, r)
  {
    var all, n := log + [op] + rest, |log|;
    var keep := seq(|all|, i => i != n);
    var j :| 0 <= j < |rest| && rest[j] == op;
    assert all[n] == op && all[n + 1 + j] == op;
    SelectAllBut(log, op, rest);
    CompactionPreservesReplay(all, keep, r);
  }

  lemma {:induction false} SelectAllBut(log: seq<LogOp>, op: LogOp, rest: seq<LogOp>)
    ensures var all := log + [op] + rest; Select(all, seq(|all|, i => i != |log|)) == log + rest
    decreases |rest|
  {
    var all := log + [op] + rest;
    var keep := seq(|all|, i => i != |log|);
    var n := |all| - 1;
    if rest == [] {
      SelectAll(log, keep[..n]);
      assert all[..n] == log;
      assert log + rest == log;
    } else {
      var front := rest[..|rest| - 1];
      SelectAllBut(log, op, front);
      assert all[..n] == log + [op] + front;
      assert keep[..n] == seq(n, i => i != |log|);
      assert log + rest == log + front + [all[n]];
    }
  }

  lemma {:induction false} SelectAll(log: seq<LogOp>, keep: seq<bool>)
    requires |keep| == |log| && forall i :: 0 <= i < |log| ==> keep[i]
    ensures Select(log, keep) == log
    decreases |log|
  {
    if log != [] {
      SelectAll(log[..|log| - 1], keep[..|log| - 1]);
    }
  }
}
