/** The replicated pin map (state/mapstate/map_state.go) and the peer map (peer_manager.go). */
module SharedState {
  import opened Types

  type PinMap = map<Cid, CidArg>

  class MapState {
    var pinMap: PinMap

    constructor ()
      ensures pinMap == map[]
    {
      pinMap := map[];
    }

    ghost predicate Valid()
      reads this
    {
      forall c :: c in pinMap ==> pinMap[c].cid == c
    }

    method Add(c: CidArg)
      modifies this
      ensures pinMap == old(pinMap)[c.cid := c]
    {
      pinMap := pinMap[c.cid := c];
    }

    method Rm(c: Cid)
      modifies this
      ensures pinMap == old(pinMap) - {c}
    {
      pinMap := pinMap - {c};
    }

    /** A CID that is not in the state yields the zero CidArg. */
    function Get(c: Cid): (arg: CidArg)
      reads this
      ensures Has(c) ==> arg == pinMap[c]
      ensures !Has(c) ==> arg == CidArg("", [], false)
    {
      if c in pinMap then pinMap[c] else NO_CID_ARG
    }

    predicate Has(c: Cid)
      reads this
    {
      c in pinMap
    }

    /** Every entry once, in some order. */
    method List() returns (cids: seq<CidArg>)
      requires Valid()
      ensures forall a :: a in cids <==> a.cid in pinMap && pinMap[a.cid] == a
      ensures forall i, j :: 0 <= i < j < |cids| ==> cids[i].cid != cids[j].cid
    {
      cids := [];
      var left := pinMap.Keys;
      while left != {}
        invariant left <= pinMap.Keys
        invariant forall a :: a in cids <==> a.cid in pinMap.Keys - left && pinMap[a.cid] == a
        invariant forall i, j :: 0 <= i < j < |cids| ==> cids[i].cid != cids[j].cid
        decreases |left|
      {
        var c :| c in left;
        assert forall i :: 0 <= i < |cids| ==> cids[i] in cids;
        cids := cids + [pinMap[c]];
        left := left - {c};
      }
    }
  }

  /** `peer` is the ID in the /ipfs component; None if there is none or it cannot be decoded. */
  datatype Multiaddr = Multiaddr(text: string, peer: Option<PeerId>)

  type PeerMap = map<PeerId, Multiaddr>

  /** addFromMultiaddrs stops at the first address that cannot be split. */
  function AddAddrs(m: PeerMap, addrs: seq<Multiaddr>): PeerMap
    decreases |addrs|
  {
    if addrs == [] || addrs[0].peer.None? then m
    else AddAddrs(m[addrs[0].peer.value := addrs[0]], addrs[1..])
  }

  ghost predicate FirstBad(addrs: seq<Multiaddr>, k: nat) {
    k < |addrs| && addrs[k].peer.None? && forall j :: 0 <= j < k ==> addrs[j].peer.Some?
  }

  /** For `p`, the map has the last of these addresses, or what it had before if there is none. */
  ghost predicate StoresAll(m: PeerMap, m': PeerMap, addrs: seq<Multiaddr>, p: PeerId) {
    || ((forall i :: 0 <= i < |addrs| ==> addrs[i].peer != Some(p)) && (p in m' <==> p in m) && (p in m ==> m'[p] == m[p]))
    || (exists i: nat :: LastFor(addrs, i, p) && p in m' && m'[p] == addrs[i])
  }

  ghost predicate LastFor(addrs: seq<Multiaddr>, i: nat, p: PeerId) {
    i < |addrs| && addrs[i].peer == Some(p) && forall j :: i < j < |addrs| ==> addrs[j].peer != Some(p)
  }

  lemma {:induction false} AllGoodStored(m: PeerMap, addrs: seq<Multiaddr>, p: PeerId)
    requires forall j :: 0 <= j < |addrs| ==> addrs[j].peer.Some?
    ensures StoresAll(m, AddAddrs(m, addrs), addrs, p)
    decreases |addrs|
  {
    if addrs != [] {
      var rest := addrs[1..];
      assert forall j :: 0 <= j < |rest| ==> rest[j] == addrs[j + 1];
      var m1 := m[addrs[0].peer.value := addrs[0]];
      AllGoodStored(m1, rest, p);
      if i: nat :| LastFor(rest, i, p) && p in AddAddrs(m1, rest) && AddAddrs(m1, rest)[p] == rest[i] {
        assert forall j :: i + 1 < j < |addrs| ==> addrs[j] == rest[j - 1];
        assert LastFor(addrs, i + 1, p);
      } else if addrs[0].peer == Some(p) {
        assert forall j :: 1 <= j < |addrs| ==> addrs[j] == rest[j - 1];
        assert LastFor(addrs, 0, p);
      } else {
        assert forall j :: 1 <= j < |addrs| ==> addrs[j] == rest[j - 1];
      }
    }
  }

  lemma {:induction false} StopsAtBad(m: PeerMap, addrs: seq<Multiaddr>) returns (k: nat)
    requires exists j :: 0 <= j < |addrs| && addrs[j].peer.None?
    ensures FirstBad(addrs, k) && AddAddrs(m, addrs) == AddAddrs(m, addrs[..k])
    decreases |addrs|
  {
    if addrs[0].peer.None? {
      k := 0;
    } else {
      var rest := addrs[1..];
      var j :| 0 <= j < |addrs| && addrs[j].peer.None?;
      assert rest[j - 1].peer.None?;
      k := StopsAtBad(m[addrs[0].peer.value := addrs[0]], rest);
      assert forall i :: 1 <= i <= k ==> addrs[i] == rest[i - 1];
      assert addrs[..k + 1][1..] == rest[..k];
      k := k + 1;
    }
  }

  /** What addFromMultiaddrs leaves, spelled out. */
  lemma AddAddrsMeans(m: PeerMap, addrs: seq<Multiaddr>)
    ensures (forall j :: 0 <= j < |addrs| ==> addrs[j].peer.Some?) ==>
      forall p :: StoresAll(m, AddAddrs(m, addrs), addrs, p)
    ensures (exists j :: 0 <= j < |addrs| && addrs[j].peer.None?) ==>
      exists k: nat :: FirstBad(addrs, k) && forall p :: StoresAll(m, AddAddrs(m, addrs), addrs[..k], p)
  {
    hide AddAddrs, StoresAll;
    if forall j :: 0 <= j < |addrs| ==> addrs[j].peer.Some? {
      forall p { AllGoodStored(m, addrs, p); }
    } else {
      var k := StopsAtBad(m, addrs);
      forall p { AllGoodStored(m, addrs[..k], p); }
    }
  }

  class PeerManager {
    const self: PeerId
    const clusterAddr: Multiaddr
    var peermap: PeerMap

    constructor (self: PeerId, clusterAddr: Multiaddr)
      ensures this.self == self && this.clusterAddr == clusterAddr && peermap == map[self := clusterAddr]
    {
      this.self, this.clusterAddr := self, clusterAddr;
      new;
      ResetPeers();
    }

    method AddPeer(addr: Multiaddr) returns (ok: bool)
      modifies this
      ensures ok == addr.peer.Some?
      ensures peermap == if ok then old(peermap)[addr.peer.value := addr] else old(peermap)
    {
      if addr.peer.None? {
        return false;
      }
      peermap := peermap[addr.peer.value := addr];
      ok := true;
    }

    /** Without the shutdown that follows when a peer removes itself. */
    method RmPeer(pid: PeerId)
      modifies this
      ensures peermap == old(peermap) - {pid}
    {
      peermap := peermap - {pid};
    }

    method ResetPeers()
      modifies this
      ensures peermap == map[self := clusterAddr]
    {
      peermap := map[];
      peermap := peermap[self := clusterAddr];
    }

    /** Includes ourselves unless we have been removed. */
    method Peers() returns (peers: seq<PeerId>)
      ensures Enumerates(peers, peermap.Keys)
    {
      peers := [];
      var left := peermap.Keys;
      while left != {}
        invariant left <= peermap.Keys && Enumerates(peers, peermap.Keys - left)
        decreases |left|
      {
        var k :| k in left;
        EnumeratesMore(peers, peermap.Keys - left, k);
        assert peermap.Keys - left + {k} == peermap.Keys - (left - {k});
        peers := peers + [k];
        left := left - {k};
      }
      assert peermap.Keys - left == peermap.Keys;
    }

    lemma AnotherAddress(order: seq<PeerId>, left: set<PeerId>, k: PeerId)
      requires Enumerates(order, peermap.Keys - left - {self}) && k in left && left <= peermap.Keys
      ensures Enumerates(if k == self then order else order + [k], peermap.Keys - (left - {k}) - {self})
    {
      if k != self {
        EnumeratesMore(order, peermap.Keys - left - {self}, k);
        assert peermap.Keys - (left - {k}) - {self} == peermap.Keys - left - {self} + {k};
      } else {
        assert peermap.Keys - (left - {k}) - {self} == peermap.Keys - left - {self};
      }
    }

    /** `addrs` are the addresses of the peers in `order`. */
    ghost predicate AddrsOf(addrs: seq<Multiaddr>, order: seq<PeerId>)
      reads this
    {
      && |addrs| == |order|
      && (forall i :: 0 <= i < |addrs| ==> order[i] in peermap && addrs[i] == peermap[order[i]])
    }

    /** The addresses of all peers but ourselves, once each, in some order. */
    method PeersAddrs() returns (addrs: seq<Multiaddr>)
      ensures exists order :: Enumerates(order, peermap.Keys - {self}) && AddrsOf(addrs, order)
    {
      hide Enumerates;
      addrs := [];
      ghost var order: seq<PeerId> := [];
      var left := peermap.Keys;
      EnumeratesNone(peermap.Keys - left - {self});
      while left != {}
        invariant left <= peermap.Keys
        invariant Enumerates(order, peermap.Keys - left - {self}) && AddrsOf(addrs, order)
        decreases |left|
      {
        var k :| k in left;
        AnotherAddress(order, left, k);
        if k != self {
          addrs, order := addrs + [peermap[k]], order + [k];
        }
        left := left - {k};
      }
      assert peermap.Keys - left - {self} == peermap.Keys - {self};
    }

    method AddFromMultiaddrs(addrs: seq<Multiaddr>) returns (ok: bool)
      modifies this
      ensures ok <==> forall i :: 0 <= i < |addrs| ==> addrs[i].peer.Some?
      ensures peermap == AddAddrs(old(peermap), addrs)
      ensures ok ==> forall p :: StoresAll(old(peermap), peermap, addrs, p)
      ensures !ok ==> exists k: nat :: FirstBad(addrs, k) && forall p :: StoresAll(old(peermap), peermap, addrs[..k], p)
    {
      hide StoresAll;
      AddAddrsMeans(peermap, addrs);
      for i := 0 to |addrs|
        invariant AddAddrs(peermap, addrs[i..]) == AddAddrs(old(peermap), addrs)
        invariant forall j :: 0 <= j < i ==> addrs[j].peer.Some?
      {
        assert addrs[i..][1..] == addrs[i + 1..];
        var added := AddPeer(addrs[i]);
        if !added {
          return false;
        }
      }
      ok := true;
    }
  }
}
