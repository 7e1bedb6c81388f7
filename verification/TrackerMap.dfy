/** The status map of the pin tracker and the IPFS daemon, as values (map_pin_tracker.go). */
module TrackerMap {
  import opened Types

  type StatusMap = map<Cid, PinInfo>
  type Daemon = map<Cid, IpfsPinStatus>

  const UNPINNING_TIMEOUT: Time := 10.0
  const PINNING_TIMEOUT: Time := 900.0

  const ERR_UNPINNING_TIMEOUT := "unpinning operation is taking too long"
  const ERR_PINNING_TIMEOUT := "pinning operation is taking too long"
  const ERR_PINNED := "the item is unexpectedly pinned on IPFS"
  const ERR_UNPINNED := "the item is unexpectedly not pinned on IPFS"
  const ERR_PIN_QUEUE := "pin queue is full"
  const ERR_UNPIN_QUEUE := "unpin queue is full"
  const ERR_RPC := "rpc error"

  function Put(m: StatusMap, self: PeerId, c: Cid, s: TrackerStatus, now: Time): StatusMap {
    if s == Unpinned then m - {c} else m[c := PinInfo(c, self, s, now, "")]
  }

  function Lookup(m: StatusMap, self: PeerId, c: Cid, now: Time): PinInfo {
    if c in m then m[c] else PinInfo(c, self, Unpinned, now, "")
  }

  function StatusOf(m: StatusMap, c: Cid): TrackerStatus {
    if c in m then m[c].status else Unpinned
  }

  function PutError(m: StatusMap, self: PeerId, c: Cid, error: string, now: Time): StatusMap {
    match StatusOf(m, c)
    case Pinned | Pinning | PinError => m[c := PinInfo(c, self, PinError, now, error)]
    case Unpinned | Unpinning | UnpinError => m[c := PinInfo(c, self, UnpinError, now, error)]
    case _ => m
  }

  predicate IsRemote(self: PeerId, arg: CidArg) {
    !arg.everywhere && self !in arg.allocations
  }

  /** What syncStatus does about an entry it has read. */
  datatype Decision = NoChange | Write(status: TrackerStatus) | Fail(error: string)

  function SyncDecision(p: PinInfo, pinned: bool, now: Time): Decision {
    if pinned then
      match p.status
      case Pinning | PinError => Write(Pinned)
      case Unpinning => if now - p.ts > UNPINNING_TIMEOUT then Fail(ERR_UNPINNING_TIMEOUT) else NoChange
      case Unpinned => Fail(ERR_PINNED)
      case _ => NoChange
    else
      match p.status
      case Pinned => Fail(ERR_UNPINNED)
      case Pinning => if now - p.ts > PINNING_TIMEOUT then Fail(ERR_PINNING_TIMEOUT) else NoChange
      case Unpinning | UnpinError => Write(Unpinned)
      case _ => NoChange
  }

  /** setError on every tracked CID. */
  function PutErrors(m: StatusMap, self: PeerId, error: string, now: Time): StatusMap {
    map c | c in m :: PutError(m, self, c, error, now)[c]
  }

  // ---- the daemon -------------------------------------------------------------------------

  function IpfsStatus(d: Daemon, c: Cid): IpfsPinStatus {
    if c in d then d[c] else IpfsUnpinned
  }

  predicate Holds(d: Daemon, c: Cid) {
    IpfsStatus(d, c).IsPinned()
  }

  /** The answer to `pin ls --type=recursive`: direct pins are not listed. */
  function RecursivePins(d: Daemon): Daemon {
    map c | c in d && d[c] == Recursive :: d[c]
  }

  /** How an RPC to the daemon ends. A call that reports an error may still have taken effect. */
  datatype Outcome = Done | Failed(effect: bool)
  {
    predicate Effective() {
      Done? || effect
    }
  }

  function IpfsPin(d: Daemon, c: Cid, out: Outcome): Daemon {
    if out.Effective() && !Holds(d, c) then d[c := Recursive] else d
  }

  function IpfsUnpin(d: Daemon, c: Cid, out: Outcome): Daemon {
    if out.Effective() && Holds(d, c) then d - {c} else d
  }
}
