/**
The pin tracker as a concurrent state machine.

A thread is a goroutine about to take its next step. Every access to the status map under `mux`,
every channel operation and every RPC is one step, so the steps of different calls, of the two
workers and of the goroutines started by StateSync interleave freely.
*/
module TrackerMachine {
  import opened Types
  import opened TrackerMap

  /** What follows a pin() or unpin() call. */
  datatype After = Return | FreeWorker | MarkRemote

  datatype Thread =
    // Track
    | TrackGet(arg: CidArg)
    | TrackSetRemote(arg: CidArg)
    | TrackSet(arg: CidArg)
    | TrackEnqueue(arg: CidArg)
    | TrackFull(arg: CidArg)
    // Untrack
    | UntrackSet(c: Cid)
    | UntrackEnqueue(c: Cid)
    | UntrackFull(c: Cid)
    // pin() and unpin()
    | PinSet(arg: CidArg, after: After)
    | PinCall(arg: CidArg, after: After)
    | PinReturn(arg: CidArg, ok: bool, after: After)
    | UnpinCall(arg: CidArg, after: After)
    | UnpinReturn(arg: CidArg, ok: bool, after: After)
    // Recover
    | RecoverGet(c: Cid)
    // Sync
    | SyncCall(c: Cid)
    | SyncFailed(c: Cid)
    | SyncGet(c: Cid, pinned: bool)
    | SyncAct(c: Cid, decision: Decision)
    // SyncAll
    | SyncAllCall
    | SyncAllList(listing: Daemon)
    | SyncAllNext(cids: seq<Cid>, listing: Daemon)
    | SyncAllAct(c: Cid, decision: Decision, cids: seq<Cid>, listing: Daemon)
    // Cluster.StateSync
    | StateSyncTrack(args: seq<CidArg>, pins: set<Cid>)
    | StateSyncList(pins: set<Cid>)
    | StateSyncUntrack(cids: seq<Cid>, pins: set<Cid>)

  /** `trouble` records that a daemon call failed or that a queue was full. */
  datatype State = State(
    self: PeerId,
    capacity: nat,
    status: StatusMap,
    pinCh: seq<CidArg>,
    unpinCh: seq<CidArg>,
    pinBusy: bool,
    unpinBusy: bool,
    threads: multiset<Thread>,
    daemon: Daemon,
    trouble: bool)

  /** The choices of the environment during one step: the end of an RPC, the answer to a listing
      (None when the daemon cannot be contacted), the iteration order of a map, the clock. */
  datatype Env = Env(out: Outcome, answer: Option<Daemon>, order: seq<Cid>, now: Time)

  function TrackStart(self: PeerId, arg: CidArg): Thread {
    if IsRemote(self, arg) then TrackGet(arg) else TrackSet(arg)
  }

  /** Calls that other components may make at any time. */
  predicate IsCall(self: PeerId, t: Thread) {
    || (t.TrackGet? && IsRemote(self, t.arg))
    || (t.TrackSet? && !IsRemote(self, t.arg))
    || t.UntrackSet? || t.RecoverGet? || t.SyncCall? || t.SyncAllCall? || t.StateSyncTrack?
  }

  /** What a step leaves of a goroutine: nothing, its continuation, or that and a new goroutine. */
  datatype Continuation = Ends | Becomes(t: Thread) | Forks(t: Thread, started: Thread)
  {
    function Threads(): multiset<Thread> {
      match this
      case Ends => multiset{}
      case Becomes(t) => multiset{t}
      case Forks(t, u) => multiset{t, u}
    }
  }

  function Next(s: State, t: Thread, env: Env): Continuation {
    match t
    case TrackGet(arg) =>
      Becomes(if StatusOf(s.status, arg.cid) == Pinned then UnpinCall(arg, MarkRemote) else TrackSetRemote(arg))
    case TrackSet(arg) => Becomes(TrackEnqueue(arg))
    case TrackEnqueue(arg) => if |s.pinCh| < s.capacity then Ends else Becomes(TrackFull(arg))
    case UntrackSet(c) => Becomes(UntrackEnqueue(c))
    case UntrackEnqueue(c) => if |s.unpinCh| < s.capacity then Ends else Becomes(UntrackFull(c))
    case PinSet(arg, k) => Becomes(PinCall(arg, k))
    case PinCall(arg, k) => Becomes(PinReturn(arg, env.out.Done?, k))
    case UnpinCall(arg, k) => Becomes(UnpinReturn(arg, env.out.Done?, k))
    case UnpinReturn(arg, _, k) => if k.MarkRemote? then Becomes(TrackSetRemote(arg)) else Ends
    case RecoverGet(c) =>
      if StatusOf(s.status, c) == PinError then Becomes(PinSet(ArgFor(c), Return))
      else if StatusOf(s.status, c) == UnpinError then Becomes(UnpinCall(ArgFor(c), Return))
      else Ends
    case SyncCall(c) =>
      Becomes(if env.answer.None? then SyncFailed(c) else SyncGet(c, Holds(env.answer.value, c)))
    case SyncGet(c, pinned) =>
      Becomes(SyncAct(c, SyncDecision(Lookup(s.status, s.self, c, env.now), pinned, env.now)))
    case SyncAllCall => if env.answer.None? then Ends else Becomes(SyncAllList(env.answer.value))
    case SyncAllList(l) => Becomes(SyncAllNext(env.order, l))
    case SyncAllNext(cids, l) =>
      if cids == [] then Ends
      else
        var p := Lookup(s.status, s.self, cids[0], env.now);
        Becomes(SyncAllAct(cids[0], SyncDecision(p, Holds(l, cids[0]), env.now), cids[1..], l))
    case SyncAllAct(_, _, cids, l) => Becomes(SyncAllNext(cids, l))
    case StateSyncTrack(args, pins) =>
      if args == [] then Becomes(StateSyncList(pins))
      else if StatusOf(s.status, args[0].cid) != Unpinned then Becomes(StateSyncTrack(args[1..], pins))
      else Forks(StateSyncTrack(args[1..], pins), TrackStart(s.self, args[0]))
    case StateSyncList(pins) => Becomes(StateSyncUntrack(env.order, pins))
    case StateSyncUntrack(cids, pins) =>
      if cids == [] then Ends
      else if cids[0] in pins then Becomes(StateSyncUntrack(cids[1..], pins))
      else Forks(StateSyncUntrack(cids[1..], pins), UntrackSet(cids[0]))
    case TrackSetRemote(_) | TrackFull(_) | UntrackFull(_) | PinReturn(_, _, _) | SyncFailed(_) | SyncAct(_, _) => Ends
  }

  /** A write to the status map: one set() or setError(), or setError() on every entry. */
  datatype Update = NoUpdate | PutStatus(c: Cid, status: TrackerStatus) | PutFailure(c: Cid, error: string) | FailAll

  function UpdateOf(t: Thread, env: Env): Update {
    match t
    case TrackSetRemote(arg) => PutStatus(arg.cid, Remote)
    case TrackSet(arg) => PutStatus(arg.cid, Pinning)
    case TrackFull(arg) => PutFailure(arg.cid, ERR_PIN_QUEUE)
    case UntrackSet(c) => PutStatus(c, Unpinning)
    case UntrackFull(c) => PutFailure(c, ERR_UNPIN_QUEUE)
    case PinSet(arg, _) => PutStatus(arg.cid, Pinning)
    case PinReturn(arg, ok, _) => if ok then PutStatus(arg.cid, Pinned) else PutFailure(arg.cid, ERR_RPC)
    case UnpinReturn(arg, ok, _) => if ok then PutStatus(arg.cid, Unpinned) else PutFailure(arg.cid, ERR_RPC)
    case SyncFailed(c) => PutFailure(c, ERR_RPC)
    case SyncAct(c, d) => DecisionUpdate(c, d)
    case SyncAllAct(c, d, _, _) => DecisionUpdate(c, d)
    case SyncAllCall => if env.answer.None? then FailAll else NoUpdate
    case _ => NoUpdate
  }

  function DecisionUpdate(c: Cid, d: Decision): Update {
    match d
    case NoChange => NoUpdate
    case Write(s) => PutStatus(c, s)
    case Fail(e) => PutFailure(c, e)
  }

  function ApplyUpdate(m: StatusMap, self: PeerId, u: Update, now: Time): StatusMap {
    match u
    case NoUpdate => m
    case PutStatus(c, st) => Put(m, self, c, st, now)
    case PutFailure(c, e) => PutError(m, self, c, e, now)
    case FailAll => PutErrors(m, self, ERR_RPC, now)
  }

  function DaemonAfter(d: Daemon, t: Thread, out: Outcome): Daemon {
    match t
    case PinCall(arg, _) => IpfsPin(d, arg.cid, out)
    case UnpinCall(arg, _) => IpfsUnpin(d, arg.cid, out)
    case _ => d
  }

  predicate Trouble(s: State, t: Thread, env: Env) {
    match t
    case TrackEnqueue(_) => |s.pinCh| >= s.capacity
    case UntrackEnqueue(_) => |s.unpinCh| >= s.capacity
    case PinCall(_, _) | UnpinCall(_, _) => env.out.Failed?
    case SyncCall(_) | SyncAllCall => env.answer.None?
    case _ => false
  }

  /** Goroutine `t` takes one step. */
  function Fire(s: State, t: Thread, env: Env): State
    requires t in s.threads
  {
    s.(status := ApplyUpdate(s.status, s.self, UpdateOf(t, env), env.now),
       pinCh := if t.TrackEnqueue? && |s.pinCh| < s.capacity then s.pinCh + [t.arg] else s.pinCh,
       unpinCh := if t.UntrackEnqueue? && |s.unpinCh| < s.capacity then s.unpinCh + [ArgFor(t.c)] else s.unpinCh,
       pinBusy := s.pinBusy && !(t.PinReturn? && t.after == FreeWorker),
       unpinBusy := s.unpinBusy && !(t.UnpinReturn? && t.after == FreeWorker),
       threads := s.threads - multiset{t} + Next(s, t, env).Threads(),
       daemon := DaemonAfter(s.daemon, t, env.out),
       trouble := s.trouble || Trouble(s, t, env))
  }

  datatype Action =
    | Run(t: Thread, env: Env)
    | TakePin               // the pin worker receives from pinCh
    | TakeUnpin             // the unpin worker receives from unpinCh
    | Call(call: Thread)    // another component calls into the tracker

  ghost predicate Enabled(s: State, a: Action) {
    match a
    case Run(t, env) =>
      && t in s.threads
      && (t.SyncAllList? || t.StateSyncList? ==> Enumerates(env.order, s.status.Keys))
    case TakePin => !s.pinBusy && s.pinCh != []
    case TakeUnpin => !s.unpinBusy && s.unpinCh != []
    case Call(t) => IsCall(s.self, t)
  }

  function Add(s: State, t: Thread): State {
    s.(threads := s.threads + multiset{t})
  }

  ghost function Step(s: State, a: Action): State
    requires Enabled(s, a)
  {
    match a
    case Run(t, env) => Fire(s, t, env)
    case TakePin => Add(s, PinSet(s.pinCh[0], FreeWorker)).(pinCh := s.pinCh[1..], pinBusy := true)
    case TakeUnpin => Add(s, UnpinCall(s.unpinCh[0], FreeWorker)).(unpinCh := s.unpinCh[1..], unpinBusy := true)
    case Call(t) => Add(s, t)
  }

  /** A run: any interleaving, chosen action by action. */
  ghost predicate IsRun(s: State, acts: seq<Action>)
    decreases |acts|
  {
    acts == [] || (Enabled(s, acts[0]) && IsRun(Step(s, acts[0]), acts[1..]))
  }

  ghost function Exec(s: State, acts: seq<Action>): State
    requires IsRun(s, acts)
    decreases |acts|
  {
    if acts == [] then s else Exec(Step(s, acts[0]), acts[1..])
  }

  /** No call is in progress and both queues are empty. */
  predicate Quiescent(s: State) {
    s.threads == multiset{} && s.pinCh == [] && s.unpinCh == []
  }

  predicate Blank(s: State) {
    s.status == map[] && Quiescent(s) && !s.pinBusy && !s.unpinBusy
  }
}
