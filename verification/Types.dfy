/** Values shared by all components: api/types.go. */
module Types {
  // A CID, a peer ID and a multiaddress are identified with their string encodings.
  type Cid = string
  type PeerId = string

  /** Instants and durations, in seconds on one clock. */
  type Time = real

  datatype Option<+T> = None | Some(value: T)

  datatype TrackerStatus =
    | Bug
    | ClusterError
    | PinError
    | UnpinError
    | Pinned
    | Pinning
    | Unpinning
    | Unpinned
    | Remote

  datatype IpfsPinStatus =
    | IpfsBug
    | IpfsError
    | Direct
    | Recursive
    | Indirect
    | IpfsUnpinned
  {
    predicate IsPinned() {
      Direct? || Recursive?
    }
  }

  datatype PinInfo = PinInfo(cid: Cid, peer: PeerId, status: TrackerStatus, ts: Time, error: string)

  datatype CidArg = CidArg(cid: Cid, allocations: seq<PeerId>, everywhere: bool)

  const NO_CID_ARG := CidArg("", [], false)

  function ArgFor(c: Cid): CidArg {
    CidArg(c, [], false)
  }

  /** The name of the metric that counts pins. */
  const NUMPIN := "numpin"

  /** `expire` is the RFC 1123 timestamp, which has whole-second resolution. */
  datatype Metric = Metric(name: string, peer: PeerId, value: string, expire: int, valid: bool)
  {
    /** The fraction of a second is lost when the instant is formatted. */
    function SetTTL(seconds: int, now: Time): Metric {
      this.(expire := (now + seconds as real).Floor)
    }

    function GetTTL(now: Time): Time {
      expire as real - now
    }

    predicate Expired(now: Time) {
      now > expire as real
    }

    predicate Discard(now: Time) {
      !valid || Expired(now)
    }
  }

  /** `order` visits every element of `s` exactly once, as one iteration over a Go map does. */
  ghost predicate Enumerates<T(!new)>(order: seq<T>, s: set<T>) {
    && (forall x :: x in order <==> x in s)
    && Distinct(order)
  }

  ghost predicate Distinct<T>(order: seq<T>) {
    forall i, j :: 0 <= i < j < |order| ==> order[i] != order[j]
  }

  function ToSet<T>(order: seq<T>): set<T> {
    set x | x in order
  }

  lemma EnumeratesNone<T(!new)>(s: set<T>)
    requires s == {}
    ensures Enumerates([], s)
  {
  }

  lemma EnumeratesMore<T(!new)>(order: seq<T>, s: set<T>, x: T)
    requires Enumerates(order, s) && x !in s
    ensures Enumerates(order + [x], s + {x})
  {
    assert forall y :: y in order + [x] <==> y in order || y == x;
  }

  lemma {:induction false} EnumerationExists<T(!new)>(s: set<T>) returns (order: seq<T>)
    ensures Enumerates(order, s)
  {
    if s == {} {
      order := [];
    } else {
      var x :| x in s;
      var rest := EnumerationExists(s - {x});
      order := [x] + rest;
    }
  }

  lemma {:induction false} DistinctSize<T>(order: seq<T>)
    requires Distinct(order)
    ensures |ToSet(order)| == |order|
  {
    if order != [] {
      var rest := order[1..];
      DistinctSize(rest);
      assert ToSet(order) == ToSet(rest) + {order[0]};
    }
  }
}
