/**
One CID through the concurrent tracker. While exactly one operation concerns `c`, the operation is
followed from goroutine to queue to worker, under every interleaving with work on other CIDs.
*/
module Settling {
  import opened Types
  import opened TrackerMap
  import opened TrackerMachine

  /** `t` never reads or writes anything about `c`, and starts nothing that does. */
  predicate Quiet(t: Thread, c: Cid) {
    match t
    case TrackGet(a) => a.cid != c
    case TrackSetRemote(a) => a.cid != c
    case TrackSet(a) => a.cid != c
    case TrackEnqueue(a) => a.cid != c
    case TrackFull(a) => a.cid != c
    case PinSet(a, _) => a.cid != c
    case PinCall(a, _) => a.cid != c
    case PinReturn(a, _, _) => a.cid != c
    case UnpinCall(a, _) => a.cid != c
    case UnpinReturn(a, _, _) => a.cid != c
    case UntrackSet(x) => x != c
    case UntrackEnqueue(x) => x != c
    case UntrackFull(x) => x != c
    case RecoverGet(x) => x != c
    case SyncCall(x) => x != c
    case SyncFailed(x) => x != c
    case SyncGet(x, _) => x != c
    case SyncAct(x, _) => x != c
    case StateSyncTrack(args, pins) => c in pins && NotQueued(args, c)
    case StateSyncList(pins) => c in pins
    case StateSyncUntrack(cids, pins) => c in pins || c !in cids
    case SyncAllCall | SyncAllList(_) | SyncAllNext(_, _) | SyncAllAct(_, _, _, _) => false
  }

  predicate NotQueued(q: seq<CidArg>, c: Cid) {
    forall i :: 0 <= i < |q| ==> q[i].cid != c
  }

  ghost predicate AllQuiet(ts: multiset<Thread>, c: Cid) {
    forall t :: t in ts ==> Quiet(t, c)
  }

  ghost predicate DistinctCids(args: seq<CidArg>) {
    forall i, j :: 0 <= i < j < |args| ==> args[i].cid != args[j].cid
  }

  /** Nothing is in progress or queued for `c`. */
  ghost predicate Idle(s: State, c: Cid) {
    AllQuiet(s.threads, c) && NotQueued(s.pinCh, c) && NotQueued(s.unpinCh, c)
  }

  /** What the operation on the CID is meant to do. `was`: the CID was Pinned before; `free`: it had
      an entry or the daemon did not hold it before; `held`: the daemon held it. `Alone` is any single
      operation, also of Recover, Sync and SyncAll, with agreement between tracker and daemon as its
      only aim. */
  datatype Goal =
    | Track(arg: CidArg, was: bool)
    | Untrack(c: Cid, free: bool)
    | Keep(c: Cid, entry: PinInfo, held: bool)
    | Alone(c: Cid)

  datatype Stage = Running(t: Thread) | InPinCh(i: nat) | InUnpinCh(i: nat) | Settled

  function CidOf(g: Goal): Cid {
    if g.Track? then g.arg.cid else g.c
  }

  ghost predicate TrackAt(s: State, arg: CidArg, was: bool, t: Thread) {
    var st := StatusOf(s.status, arg.cid);
    var held := Holds(s.daemon, arg.cid);
    if IsRemote(s.self, arg) then
      match t
      case StateSyncTrack(args, pins) =>
        arg in args && DistinctCids(args) && arg.cid in pins && st == Unpinned && !was
      case TrackGet(a) => a == arg && (was <==> st == Pinned)
      case UnpinCall(a, k) => a == arg && k == MarkRemote
      case UnpinReturn(a, ok, k) => a == arg && k == MarkRemote && (if ok then !held else s.trouble)
      case TrackSetRemote(a) => a == arg && (was ==> !held || s.trouble)
      case _ => false
    else
      match t
      case StateSyncTrack(args, pins) =>
        arg in args && DistinctCids(args) && arg.cid in pins && st == Unpinned && !was
      case TrackSet(a) => a == arg
      case TrackEnqueue(a) => a == arg && st == Pinning
      case TrackFull(a) => a == arg && st == Pinning && s.trouble
      case PinSet(a, k) => a == arg && k == FreeWorker && st == Pinning
      case PinCall(a, k) => a == arg && k == FreeWorker && st == Pinning
      case PinReturn(a, ok, k) => a == arg && k == FreeWorker && st == Pinning && (if ok then held else s.trouble)
      case _ => false
  }

  ghost predicate UntrackAt(s: State, c: Cid, free: bool, t: Thread) {
    var st := StatusOf(s.status, c);
    match t
    case StateSyncTrack(args, pins) => c !in pins && NotQueued(args, c) && (free ==> c in s.status || !Holds(s.daemon, c))
    case StateSyncList(pins) => c !in pins && (free ==> c in s.status || !Holds(s.daemon, c))
    case StateSyncUntrack(cids, pins) => c !in pins && c in cids && Distinct(cids)
    case UntrackSet(x) => x == c
    case UntrackEnqueue(x) => x == c && st == Unpinning
    case UntrackFull(x) => x == c && st == Unpinning && s.trouble
    case UnpinCall(a, k) => a.cid == c && k == FreeWorker && st == Unpinning
    case UnpinReturn(a, ok, k) =>
      a.cid == c && k == FreeWorker && st == Unpinning && (if ok then !Holds(s.daemon, c) else s.trouble)
    case _ => false
  }

  ghost predicate KeepAt(s: State, c: Cid, entry: PinInfo, held: bool, t: Thread) {
    && t.StateSyncTrack? && c in t.pins && !NotQueued(t.args, c)
    && c in s.status && s.status[c] == entry && entry.status != Unpinned && Holds(s.daemon, c) == held
  }

  /** What is Pinned is held by the daemon. */
  predicate Agrees(s: State, c: Cid) {
    StatusOf(s.status, c) == Pinned ==> Holds(s.daemon, c)
  }

  ghost predicate AloneAt(s: State, c: Cid, t: Thread) {
    var held := Holds(s.daemon, c);
    !Quiet(t, c) &&
    match t
    case PinReturn(_, ok, _) => ok ==> held
    case RecoverGet(_) | SyncCall(_) | StateSyncList(_) | SyncAllCall => Agrees(s, c)
    case SyncGet(_, pinned) => Agrees(s, c) && (pinned ==> held)
    case SyncAct(_, d) => Agrees(s, c) && (d == Write(Pinned) ==> held)
    case StateSyncTrack(args, pins) => Agrees(s, c) && DistinctCids(args) && (c in pins || NotQueued(args, c))
    case StateSyncUntrack(cids, _) => Agrees(s, c) && Distinct(cids)
    case SyncAllList(l) => Agrees(s, c) && (Holds(l, c) ==> held)
    case SyncAllNext(_, l) => Agrees(s, c) && (Holds(l, c) ==> held)
    case SyncAllAct(x, d, _, l) =>
      Agrees(s, c) && (Holds(l, c) ==> held) && (x == c && d == Write(Pinned) ==> held)
    case _ => true
  }

  ghost predicate TaskAt(s: State, g: Goal, t: Thread) {
    match g
    case Track(arg, was) => TrackAt(s, arg, was, t)
    case Untrack(c, free) => UntrackAt(s, c, free, t)
    case Keep(c, entry, held) => KeepAt(s, c, entry, held, t)
    case Alone(c) => AloneAt(s, c, t)
  }

  /** The result of a completed operation. */
  ghost predicate SettledAt(s: State, g: Goal) {
    match g
    case Track(arg, was) =>
      var st := StatusOf(s.status, arg.cid);
      var held := Holds(s.daemon, arg.cid);
      if IsRemote(s.self, arg) then st == Remote && (was ==> !held || s.trouble)
      else (st == Pinned && held) || (st == PinError && s.trouble)
    case Untrack(c, free) =>
      || (c !in s.status && (free ==> !Holds(s.daemon, c)))
      || (StatusOf(s.status, c) == UnpinError && s.trouble)
    case Keep(c, entry, held) => c in s.status && s.status[c] == entry && Holds(s.daemon, c) == held
    case Alone(c) => Agrees(s, c)
  }

  /** The operation may wait in the pin queue as `arg`. */
  predicate PinQueued(s: State, g: Goal, arg: CidArg) {
    match g
    case Track(a, _) => arg == a && !IsRemote(s.self, a) && StatusOf(s.status, a.cid) == Pinning
    case Alone(c) => arg.cid == c
    case _ => false
  }

  predicate UnpinQueued(s: State, g: Goal, arg: CidArg) {
    match g
    case Untrack(c, _) => arg.cid == c && StatusOf(s.status, c) == Unpinning
    case Alone(c) => arg.cid == c
    case _ => false
  }

  ghost predicate At(s: State, g: Goal, stage: Stage) {
    var c := CidOf(g);
    match stage
    case Running(t) =>
      && t in s.threads && AllQuiet(s.threads - multiset{t}, c)
      && NotQueued(s.pinCh, c) && NotQueued(s.unpinCh, c)
      && TaskAt(s, g, t)
    case InPinCh(i) =>
      && AllQuiet(s.threads, c) && NotQueued(s.unpinCh, c)
      && i < |s.pinCh| && NotQueued(s.pinCh[..i], c) && NotQueued(s.pinCh[i + 1..], c)
      && PinQueued(s, g, s.pinCh[i])
    case InUnpinCh(i) =>
      && AllQuiet(s.threads, c) && NotQueued(s.pinCh, c)
      && i < |s.unpinCh| && NotQueued(s.unpinCh[..i], c) && NotQueued(s.unpinCh[i + 1..], c)
      && UnpinQueued(s, g, s.unpinCh[i])
    case Settled => Idle(s, c) && SettledAt(s, g)
  }

  // ---- steps that do not concern c ------------------------------------------------------------

  /** Everything the stages say about `c` looks the same in both states. */
  ghost predicate SameAt(s: State, s': State, c: Cid) {
    && s'.self == s.self
    && (c in s'.status <==> c in s.status) && (c in s.status ==> s'.status[c] == s.status[c])
    && Holds(s'.daemon, c) == Holds(s.daemon, c)
    && (s.trouble ==> s'.trouble)
  }

  lemma QuietFire(s: State, t: Thread, env: Env, c: Cid)
    requires t in s.threads && Quiet(t, c)
    ensures SameAt(s, Fire(s, t, env), c)
  {
  }

  lemma QuietNext(s: State, t: Thread, env: Env, c: Cid)
    requires Quiet(t, c)
    ensures AllQuiet(Next(s, t, env).Threads(), c)
  {
    if t.StateSyncTrack? && t.args != [] {
      assert forall i :: 0 <= i < |t.args[1..]| ==> t.args[1..][i] == t.args[i + 1];
    }
  }

  lemma SameTask(s: State, s': State, g: Goal)
    requires SameAt(s, s', CidOf(g))
    ensures forall t :: TaskAt(s, g, t) ==> TaskAt(s', g, t)
    ensures SettledAt(s, g) ==> SettledAt(s', g)
    ensures forall arg :: PinQueued(s, g, arg) ==> PinQueued(s', g, arg)
    ensures forall arg :: UnpinQueued(s, g, arg) ==> UnpinQueued(s', g, arg)
  {
  }

  /** `q'` is `q` with entries for other CIDs appended. */
  ghost predicate Grown(q: seq<CidArg>, q': seq<CidArg>, c: Cid) {
    |q| <= |q'| && q'[..|q|] == q && NotQueued(q'[|q|..], c)
  }

  lemma QuietQueues(s: State, t: Thread, env: Env, c: Cid)
    requires t in s.threads && Quiet(t, c)
    ensures Grown(s.pinCh, Fire(s, t, env).pinCh, c) && Grown(s.unpinCh, Fire(s, t, env).unpinCh, c)
  {
  }

  lemma GrownQueue(q: seq<CidArg>, q': seq<CidArg>, c: Cid, i: nat)
    requires Grown(q, q', c)
    ensures NotQueued(q, c) ==> NotQueued(q', c)
    ensures i < |q| && NotQueued(q[..i], c) && NotQueued(q[i + 1..], c) ==>
      q'[i] == q[i] && NotQueued(q'[..i], c) && NotQueued(q'[i + 1..], c)
  {
    assert q' == q + q'[|q|..];
    if i < |q| {
      assert q'[..i] == q[..i] && q'[i + 1..] == q[i + 1..] + q'[|q|..];
    }
  }

  /** A stage survives any change that leaves `c` alone. */
  lemma Undisturbed(s: State, s': State, g: Goal, stage: Stage)
    requires At(s, g, stage) && SameAt(s, s', CidOf(g))
    requires Grown(s.pinCh, s'.pinCh, CidOf(g)) && Grown(s.unpinCh, s'.unpinCh, CidOf(g))
    requires stage.Running? ==> stage.t in s'.threads && AllQuiet(s'.threads - multiset{stage.t}, CidOf(g))
    requires !stage.Running? ==> AllQuiet(s'.threads, CidOf(g))
    ensures At(s', g, stage)
  {
    SameTask(s, s', g);
    GrownQueue(s.pinCh, s'.pinCh, CidOf(g), if stage.InPinCh? then stage.i else 0);
    GrownQueue(s.unpinCh, s'.unpinCh, CidOf(g), if stage.InUnpinCh? then stage.i else 0);
  }

  lemma ReplaceQuiet(ts: multiset<Thread>, t: Thread, k: Continuation, c: Cid)
    requires AllQuiet(ts, c) && AllQuiet(k.Threads(), c)
    ensures AllQuiet(ts - multiset{t} + k.Threads(), c)
  {
  }

  lemma QuietRun(s: State, g: Goal, stage: Stage, t: Thread, env: Env)
    requires At(s, g, stage) && t in s.threads && Quiet(t, CidOf(g))
    requires stage.Running? ==> t != stage.t
    ensures At(Fire(s, t, env), g, stage)
  {
    hide ApplyUpdate, DaemonAfter, Trouble, UpdateOf, Next, TaskAt, SettledAt;
    var c := CidOf(g);
    var s', k := Fire(s, t, env), Next(s, t, env);
    QuietFire(s, t, env, c);
    QuietNext(s, t, env, c);
    QuietQueues(s, t, env, c);
    if stage.Running? {
      assert s'.threads - multiset{stage.t} == s.threads - multiset{stage.t} - multiset{t} + k.Threads();
      ReplaceQuiet(s.threads - multiset{stage.t}, t, k, c);
    } else {
      ReplaceQuiet(s.threads, t, k, c);
    }
    Undisturbed(s, s', g, stage);
  }

  // ---- steps of the operation itself ------------------------------------------------------------

  /** Where the operation is after a step of its goroutine. */
  function StageAfter(s: State, c: Cid, t: Thread, env: Env): Stage {
    match Next(s, t, env)
    case Ends =>
      if t.TrackEnqueue? then InPinCh(|s.pinCh|)
      else if t.UntrackEnqueue? then InUnpinCh(|s.unpinCh|)
      else Settled
    case Becomes(u) => if Quiet(u, c) then Settled else Running(u)
    case Forks(u, v) => if Quiet(u, c) then Running(v) else Running(u)
  }

  /** What the step must establish about the operation, and that all else it leaves is quiet. */
  ghost predicate Handled(s: State, g: Goal, t: Thread, env: Env)
    requires t in s.threads
  {
    var s', c, stage := Fire(s, t, env), CidOf(g), StageAfter(s, CidOf(g), t, env);
    && (stage.Running? ==> TaskAt(s', g, stage.t))
    && (stage.Settled? ==> SettledAt(s', g))
    && (stage.InPinCh? ==> PinQueued(s', g, t.arg))
    && (stage.InUnpinCh? ==> UnpinQueued(s', g, ArgFor(t.c)))
    && (Next(s, t, env).Forks? ==> Quiet(Next(s, t, env).t, c) || Quiet(Next(s, t, env).started, c))
    && (t.TrackEnqueue? ==> t.arg.cid == c)
    && (t.UntrackEnqueue? ==> t.c == c)
  }

  lemma ReadingFire(s: State, t: Thread, env: Env)
    requires t in s.threads
    requires t.StateSyncTrack? || t.StateSyncList? || t.StateSyncUntrack? || t.SyncAllList? || t.SyncAllNext?
    ensures Fire(s, t, env) == s.(threads := Fire(s, t, env).threads)
  {
    hide Next;
  }

  lemma StateSyncTrackNext(s: State, t: Thread, env: Env)
    requires t.StateSyncTrack?
    ensures Next(s, t, env)
         == if t.args == [] then Becomes(StateSyncList(t.pins))
            else if StatusOf(s.status, t.args[0].cid) == Unpinned
            then Forks(StateSyncTrack(t.args[1..], t.pins), TrackStart(s.self, t.args[0]))
            else Becomes(StateSyncTrack(t.args[1..], t.pins))
  {
    hide StatusOf, TrackStart, Lookup, SyncDecision;
  }

  lemma StateSyncUntrackNext(s: State, t: Thread, env: Env)
    requires t.StateSyncUntrack?
    ensures Next(s, t, env)
         == if t.cids == [] then Ends
            else if t.cids[0] in t.pins then Becomes(StateSyncUntrack(t.cids[1..], t.pins))
            else Forks(StateSyncUntrack(t.cids[1..], t.pins), UntrackSet(t.cids[0]))
  {
    hide StatusOf, TrackStart, Lookup, SyncDecision;
  }

  lemma SyncAllActNext(s: State, t: Thread, env: Env)
    requires t.SyncAllAct?
    ensures Next(s, t, env) == Becomes(SyncAllNext(t.cids, t.listing))
  {
    hide StatusOf, TrackStart, Lookup, SyncDecision;
  }

  lemma TrackStateSync(s: State, arg: CidArg, t: Thread, env: Env)
    requires t in s.threads && TrackAt(s, arg, false, t) && t.StateSyncTrack?
    ensures Handled(s, Track(arg, false), t, env)
  {
    hide Fire, SettledAt, Next;
    ReadingFire(s, t, env);
    StateSyncTrackNext(s, t, env);
    var rest := t.args[1..];
    assert forall i :: 0 <= i < |rest| ==> rest[i] == t.args[i + 1];
    if t.args[0] == arg {
      assert NotQueued(rest, arg.cid);
    } else {
      assert arg in rest;
      var i :| 0 <= i < |t.args| && t.args[i] == arg;
      assert t.args[0].cid != arg.cid;
    }
  }

  lemma TrackStep(s: State, arg: CidArg, was: bool, t: Thread, env: Env)
    requires t in s.threads && TrackAt(s, arg, was, t)
    ensures Handled(s, Track(arg, was), t, env)
  {
    if t.StateSyncTrack? {
      TrackStateSync(s, arg, t, env);
    }
  }

  lemma UntrackStateSyncTrack(s: State, c: Cid, free: bool, t: Thread, env: Env)
    requires t in s.threads && UntrackAt(s, c, free, t) && t.StateSyncTrack?
    ensures Handled(s, Untrack(c, free), t, env)
  {
    hide Fire, SettledAt, Next, TrackStart, StatusOf;
    ReadingFire(s, t, env);
    StateSyncTrackNext(s, t, env);
    if t.args != [] {
      StartIsQuiet(s.self, t.args[0], c);
      assert forall i :: 0 <= i < |t.args[1..]| ==> t.args[1..][i] == t.args[i + 1];
    }
  }

  lemma StartIsQuiet(self: PeerId, arg: CidArg, c: Cid)
    ensures arg.cid != c ==> Quiet(TrackStart(self, arg), c)
  {
  }

  lemma UntrackStateSyncUntrack(s: State, c: Cid, free: bool, t: Thread, env: Env)
    requires t in s.threads && UntrackAt(s, c, free, t) && t.StateSyncUntrack?
    ensures Handled(s, Untrack(c, free), t, env)
  {
    hide Fire, SettledAt, Next;
    ReadingFire(s, t, env);
    StateSyncUntrackNext(s, t, env);
    var rest := t.cids[1..];
    assert forall i :: 0 <= i < |rest| ==> rest[i] == t.cids[i + 1];
    if t.cids[0] == c {
      assert c !in rest;
    } else {
      assert c in rest;
    }
  }

  lemma UntrackStep(s: State, c: Cid, free: bool, t: Thread, env: Env)
    requires t in s.threads && UntrackAt(s, c, free, t)
    requires t.StateSyncList? ==> Enumerates(env.order, s.status.Keys)
    ensures Handled(s, Untrack(c, free), t, env)
  {
    if t.StateSyncTrack? {
      UntrackStateSyncTrack(s, c, free, t, env);
    } else if t.StateSyncUntrack? {
      UntrackStateSyncUntrack(s, c, free, t, env);
    }
  }

  lemma KeepStep(s: State, c: Cid, entry: PinInfo, held: bool, t: Thread, env: Env)
    requires t in s.threads && KeepAt(s, c, entry, held, t)
    ensures Handled(s, Keep(c, entry, held), t, env)
  {
    hide Fire, Next, TrackStart;
    ReadingFire(s, t, env);
    StateSyncTrackNext(s, t, env);
    StartIsQuiet(s.self, t.args[0], c);
    assert forall i :: 0 <= i < |t.args[1..]| ==> t.args[1..][i] == t.args[i + 1];
  }

  /** What the daemon lists, it holds. */
  ghost predicate Honest(s: State, t: Thread, env: Env, c: Cid) {
    t.SyncCall? || t.SyncAllCall? ==> env.answer.Some? ==> Holds(env.answer.value, c) ==> Holds(s.daemon, c)
  }

  lemma AloneSyncAllReads(s: State, c: Cid, t: Thread, env: Env)
    requires t in s.threads && AloneAt(s, c, t) && (t.SyncAllList? || t.SyncAllNext?)
    ensures Handled(s, Alone(c), t, env)
  {
    hide Fire, PinQueued, UnpinQueued, Quiet;
    SyncAllIsNotQuiet(c);
    ReadingFire(s, t, env);
  }

  lemma SyncAllIsNotQuiet(c: Cid)
    ensures forall t: Thread :: t.SyncAllCall? || t.SyncAllList? || t.SyncAllNext? || t.SyncAllAct? ==> !Quiet(t, c)
  {
  }

  lemma AloneSyncAllCall(s: State, c: Cid, t: Thread, env: Env)
    requires t in s.threads && AloneAt(s, c, t) && t.SyncAllCall? && Honest(s, t, env, c)
    ensures Handled(s, Alone(c), t, env)
  {
  }

  lemma AloneSyncAllAct(s: State, c: Cid, t: Thread, env: Env)
    requires t in s.threads && AloneAt(s, c, t) && t.SyncAllAct?
    ensures Handled(s, Alone(c), t, env)
  {
    hide Next;
    SyncAllActNext(s, t, env);
  }

  lemma AloneStateSyncTrack(s: State, c: Cid, t: Thread, env: Env)
    requires t in s.threads && AloneAt(s, c, t) && t.StateSyncTrack?
    ensures Handled(s, Alone(c), t, env)
  {
    hide Fire, PinQueued, UnpinQueued, IsRemote, Next;
    ReadingFire(s, t, env);
    StateSyncTrackNext(s, t, env);
    if t.args != [] {
      var rest := t.args[1..];
      assert forall i :: 0 <= i < |rest| ==> rest[i] == t.args[i + 1];
      assert t.args[0].cid == c ==> NotQueued(rest, c);
    }
  }

  lemma AloneStateSyncList(s: State, c: Cid, t: Thread, env: Env)
    requires Enabled(s, Run(t, env)) && AloneAt(s, c, t) && t.StateSyncList?
    ensures Handled(s, Alone(c), t, env)
  {
    hide Fire, PinQueued, UnpinQueued;
    ReadingFire(s, t, env);
  }

  lemma RestOfDistinct(cids: seq<Cid>, c: Cid)
    requires Distinct(cids) && c in cids
    ensures cids != [] && Distinct(cids[1..])
    ensures c in cids[1..] <==> cids[0] != c
  {
    var rest := cids[1..];
    assert forall i :: 0 <= i < |rest| ==> rest[i] == cids[i + 1];
    assert cids == [cids[0]] + rest;
  }

  lemma AloneStateSyncUntrack(s: State, c: Cid, t: Thread, env: Env)
    requires t in s.threads && AloneAt(s, c, t) && t.StateSyncUntrack?
    ensures Handled(s, Alone(c), t, env)
  {
    hide Fire, PinQueued, UnpinQueued, Next, Distinct, Agrees;
    ReadingFire(s, t, env);
    StateSyncUntrackNext(s, t, env);
    RestOfDistinct(t.cids, c);
    SameAgrees(s, Fire(s, t, env), c);
  }

  lemma SameAgrees(s: State, s': State, c: Cid)
    requires s'.status == s.status && s'.daemon == s.daemon
    ensures Agrees(s', c) == Agrees(s, c)
  {
  }

  predicate TracksOrUntracks(t: Thread) {
    || t.TrackGet? || t.TrackSetRemote? || t.TrackSet? || t.TrackEnqueue? || t.TrackFull?
    || t.UntrackSet? || t.UntrackEnqueue? || t.UntrackFull?
  }

  lemma AloneTrack(s: State, c: Cid, t: Thread, env: Env)
    requires t in s.threads && AloneAt(s, c, t) && TracksOrUntracks(t)
    ensures Handled(s, Alone(c), t, env)
  {
  }

  predicate PinsOrUnpins(t: Thread) {
    t.PinSet? || t.PinCall? || t.PinReturn? || t.UnpinCall? || t.UnpinReturn? || t.RecoverGet?
  }

  lemma AlonePin(s: State, c: Cid, t: Thread, env: Env)
    requires t in s.threads && AloneAt(s, c, t) && PinsOrUnpins(t)
    ensures Handled(s, Alone(c), t, env)
  {
  }

  lemma AloneSync(s: State, c: Cid, t: Thread, env: Env)
    requires t in s.threads && AloneAt(s, c, t) && Honest(s, t, env, c)
    requires t.SyncCall? || t.SyncFailed? || t.SyncGet? || t.SyncAct?
    ensures Handled(s, Alone(c), t, env)
  {
  }

  lemma AloneStep(s: State, c: Cid, t: Thread, env: Env)
    requires Enabled(s, Run(t, env)) && AloneAt(s, c, t) && Honest(s, t, env, c)
    ensures Handled(s, Alone(c), t, env)
  {
    hide Handled, AloneAt, Honest;
    match t
    case SyncAllCall => AloneSyncAllCall(s, c, t, env);
    case SyncAllList(_) | SyncAllNext(_, _) => AloneSyncAllReads(s, c, t, env);
    case SyncAllAct(_, _, _, _) => AloneSyncAllAct(s, c, t, env);
    case StateSyncTrack(_, _) => AloneStateSyncTrack(s, c, t, env);
    case StateSyncList(_) => AloneStateSyncList(s, c, t, env);
    case StateSyncUntrack(_, _) => AloneStateSyncUntrack(s, c, t, env);
    case SyncCall(_) | SyncFailed(_) | SyncGet(_, _) | SyncAct(_, _) => AloneSync(s, c, t, env);
    case _ =>
      if TracksOrUntracks(t) {
        AloneTrack(s, c, t, env);
      } else {
        AlonePin(s, c, t, env);
      }
  }

  lemma OwnStep(s: State, g: Goal, t: Thread, env: Env)
    requires Enabled(s, Run(t, env)) && TaskAt(s, g, t) && (g.Alone? ==> Honest(s, t, env, g.c))
    ensures Handled(s, g, t, env)
  {
    match g
    case Track(arg, was) => TrackStep(s, arg, was, t, env);
    case Untrack(c, free) => UntrackStep(s, c, free, t, env);
    case Keep(c, entry, held) => KeepStep(s, c, entry, held, t, env);
    case Alone(c) => AloneStep(s, c, t, env);
  }

  lemma OwnEnds(s: State, g: Goal, t: Thread, env: Env)
    requires Enabled(s, Run(t, env)) && At(s, g, Running(t)) && Handled(s, g, t, env)
    requires Next(s, t, env).Ends?
    ensures At(Fire(s, t, env), g, StageAfter(s, CidOf(g), t, env))
  {
    assert Fire(s, t, env).threads == s.threads - multiset{t};
  }

  /** The goroutine of the operation is replaced by `u`, next to quiet ones. */
  lemma Resume(s': State, g: Goal, rest: multiset<Thread>, k: Continuation, u: Thread)
    requires AllQuiet(rest, CidOf(g)) && s'.threads == rest + k.Threads()
    requires NotQueued(s'.pinCh, CidOf(g)) && NotQueued(s'.unpinCh, CidOf(g))
    requires k == Becomes(u) || (k.Forks? && k.t == u && Quiet(k.started, CidOf(g)))
          || (k.Forks? && k.started == u && Quiet(k.t, CidOf(g)))
    requires TaskAt(s', g, u)
    ensures At(s', g, Running(u))
  {
    hide TaskAt, Quiet, NotQueued;
    var others := match k
      case Ends => multiset{}
      case Becomes(_) => multiset{}
      case Forks(t, v) => if t == u then multiset{v} else multiset{t};
    assert k.Threads() == others + multiset{u};
    assert s'.threads - multiset{u} == rest + others;
  }

  lemma OwnContinues(s: State, g: Goal, t: Thread, env: Env)
    requires Enabled(s, Run(t, env)) && At(s, g, Running(t)) && Handled(s, g, t, env)
    requires !Next(s, t, env).Ends?
    ensures At(Fire(s, t, env), g, StageAfter(s, CidOf(g), t, env))
  {
    var c, k, s', rest := CidOf(g), Next(s, t, env), Fire(s, t, env), s.threads - multiset{t};
    assert s'.pinCh == s.pinCh && s'.unpinCh == s.unpinCh;
    var stage := StageAfter(s, c, t, env);
    if stage.Running? {
      Resume(s', g, rest, k, stage.t);
    } else {
      assert s'.threads == rest + k.Threads();
    }
  }

  lemma OwnRun(s: State, g: Goal, t: Thread, env: Env)
    requires Enabled(s, Run(t, env)) && At(s, g, Running(t)) && (g.Alone? ==> Honest(s, t, env, g.c))
    ensures At(Fire(s, t, env), g, StageAfter(s, CidOf(g), t, env))
  {
    OwnStep(s, g, t, env);
    if Next(s, t, env).Ends? {
      OwnEnds(s, g, t, env);
    } else {
      OwnContinues(s, g, t, env);
    }
  }

  /** The head of the queue leaves; place `i` moves up. */
  lemma QueueMovesUp(q: seq<CidArg>, i: nat, c: Cid)
    requires i < |q| && NotQueued(q[..i], c) && NotQueued(q[i + 1..], c)
    ensures i == 0 ==> NotQueued(q[1..], c)
    ensures i > 0 ==> q[0].cid != c && NotQueued(q[1..][..i - 1], c) && NotQueued(q[1..][i..], c) && q[1..][i - 1] == q[i]
  {
    if i > 0 {
      assert q[..i][0] == q[0];
      assert q[1..][..i - 1] == q[..i][1..];
      assert q[1..][i..] == q[i + 1..];
    }
  }

  /** A worker receives; the operation is the head of the queue or moves up by one. */
  lemma PinWorkerTakes(s: State, g: Goal, stage: Stage) returns (stage': Stage)
    requires At(s, g, stage) && Enabled(s, TakePin)
    ensures At(Step(s, TakePin), g, stage')
    ensures stage' == if !stage.InPinCh? then stage
                      else if stage.i == 0 then Running(PinSet(s.pinCh[0], FreeWorker)) else InPinCh(stage.i - 1)
  {
    var t, s' := PinSet(s.pinCh[0], FreeWorker), Step(s, TakePin);
    if !stage.InPinCh? {
      stage' := stage;
      QuietTake(s, s', g, stage, t);
    } else if stage.i == 0 {
      stage' := Running(t);
      PinHeadTaken(s, g);
    } else {
      stage' := InPinCh(stage.i - 1);
      hide TaskAt, SettledAt, PinQueued, UnpinQueued;
      QueueMovesUp(s.pinCh, stage.i, CidOf(g));
      SameTask(s, s', g);
    }
  }

  lemma PinHeadTaken(s: State, g: Goal)
    requires At(s, g, InPinCh(0)) && Enabled(s, TakePin)
    ensures At(Step(s, TakePin), g, Running(PinSet(s.pinCh[0], FreeWorker)))
  {
    hide SettledAt;
    var t, s' := PinSet(s.pinCh[0], FreeWorker), Step(s, TakePin);
    QueueMovesUp(s.pinCh, 0, CidOf(g));
    assert s'.threads - multiset{t} == s.threads;
  }

  lemma QuietTake(s: State, s': State, g: Goal, stage: Stage, t: Thread)
    requires At(s, g, stage) && SameAt(s, s', CidOf(g)) && Quiet(t, CidOf(g))
    requires s'.threads == s.threads + multiset{t}
    requires s'.pinCh == s.pinCh || (s.pinCh != [] && s'.pinCh == s.pinCh[1..] && !stage.InPinCh?)
    requires s'.unpinCh == s.unpinCh || (s.unpinCh != [] && s'.unpinCh == s.unpinCh[1..] && !stage.InUnpinCh?)
    ensures At(s', g, stage)
  {
    hide TaskAt, SettledAt, PinQueued, UnpinQueued, Quiet, NotQueued, SameAt;
    SameTask(s, s', g);
    RestNotQueued(s.pinCh, CidOf(g));
    RestNotQueued(s.unpinCh, CidOf(g));
    if stage.Running? {
      assert s'.threads - multiset{stage.t} == s.threads - multiset{stage.t} + multiset{t};
    }
  }

  lemma RestNotQueued(q: seq<CidArg>, c: Cid)
    ensures q != [] && NotQueued(q, c) ==> NotQueued(q[1..], c)
  {
  }

  lemma UnpinWorkerTakes(s: State, g: Goal, stage: Stage) returns (stage': Stage)
    requires At(s, g, stage) && Enabled(s, TakeUnpin)
    ensures At(Step(s, TakeUnpin), g, stage')
    ensures stage' == if !stage.InUnpinCh? then stage
                      else if stage.i == 0 then Running(UnpinCall(s.unpinCh[0], FreeWorker)) else InUnpinCh(stage.i - 1)
  {
    var t, s' := UnpinCall(s.unpinCh[0], FreeWorker), Step(s, TakeUnpin);
    if !stage.InUnpinCh? {
      stage' := stage;
      QuietTake(s, s', g, stage, t);
    } else if stage.i == 0 {
      stage' := Running(t);
      UnpinHeadTaken(s, g);
    } else {
      stage' := InUnpinCh(stage.i - 1);
      hide TaskAt, SettledAt, PinQueued, UnpinQueued;
      QueueMovesUp(s.unpinCh, stage.i, CidOf(g));
      SameTask(s, s', g);
    }
  }

  lemma UnpinHeadTaken(s: State, g: Goal)
    requires At(s, g, InUnpinCh(0)) && Enabled(s, TakeUnpin)
    ensures At(Step(s, TakeUnpin), g, Running(UnpinCall(s.unpinCh[0], FreeWorker)))
  {
    hide SettledAt;
    var t, s' := UnpinCall(s.unpinCh[0], FreeWorker), Step(s, TakeUnpin);
    QueueMovesUp(s.unpinCh, 0, CidOf(g));
    assert s'.threads - multiset{t} == s.threads;
  }

  lemma Advance(s: State, g: Goal, stage: Stage, a: Action) returns (stage': Stage)
    requires At(s, g, stage) && Enabled(s, a)
    requires a.Call? ==> Quiet(a.call, CidOf(g))
    requires g.Alone? && a.Run? ==> Honest(s, a.t, a.env, g.c)
    ensures At(Step(s, a), g, stage')
  {
    match a
    case Run(t, env) =>
      if stage == Running(t) {
        OwnRun(s, g, t, env);
        stage' := StageAfter(s, CidOf(g), t, env);
      } else {
        assert stage.Running? ==> t in s.threads - multiset{stage.t};
        QuietRun(s, g, stage, t, env);
        stage' := stage;
      }
    case TakePin => stage' := PinWorkerTakes(s, g, stage);
    case TakeUnpin => stage' := UnpinWorkerTakes(s, g, stage);
    case Call(t) =>
      stage' := stage;
      QuietTake(s, Step(s, a), g, stage, t);
  }

  /** New calls made during the run are about other CIDs. */
  ghost predicate CallsQuiet(acts: seq<Action>, c: Cid) {
    forall i :: 0 <= i < |acts| ==> acts[i].Call? ==> Quiet(acts[i].call, c)
  }

  lemma {:induction false} Follow(s: State, g: Goal, stage: Stage, acts: seq<Action>) returns (stage': Stage)
    requires At(s, g, stage) && IsRun(s, acts) && CallsQuiet(acts, CidOf(g)) && !g.Alone?
    ensures At(Exec(s, acts), g, stage')
    decreases |acts|
  {
    if acts == [] {
      stage' := stage;
    } else {
      assert CallsQuiet(acts[1..], CidOf(g)) by {
        assert forall i :: 0 <= i < |acts[1..]| ==> acts[1..][i] == acts[i + 1];
      }
      var next := Advance(s, g, stage, acts[0]);
      stage' := Follow(Step(s, acts[0]), g, next, acts[1..]);
    }
  }

  lemma TaskIsNotQuiet(s: State, g: Goal, t: Thread)
    requires TaskAt(s, g, t)
    ensures !Quiet(t, CidOf(g))
  {
  }

  lemma IdleIsSettled(s: State, g: Goal, stage: Stage)
    requires At(s, g, stage) && Idle(s, CidOf(g))
    ensures stage.Settled?
  {
    if stage.Running? {
      TaskIsNotQuiet(s, g, stage.t);
    }
  }

  /** Whatever the interleaving, an operation that is no longer running or queued has settled. */
  lemma Settles(s: State, g: Goal, stage: Stage, acts: seq<Action>)
    requires At(s, g, stage) && IsRun(s, acts) && CallsQuiet(acts, CidOf(g)) && !g.Alone?
    requires Idle(Exec(s, acts), CidOf(g))
    ensures SettledAt(Exec(s, acts), g)
  {
    var stage' := Follow(s, g, stage, acts);
    IdleIsSettled(Exec(s, acts), g, stage');
  }
}
