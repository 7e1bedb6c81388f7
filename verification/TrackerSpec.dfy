/** What each tracker call does when nothing else runs, and that this is one of the interleavings. */
module TrackerSpec {
  import opened Types
  import opened TrackerMap
  import opened TrackerMachine
  import opened Drain
  import opened Reachability

  function PinSpec(s: State, c: Cid, out: Outcome, now: Time): State {
    var m := Put(s.status, s.self, c, Pinning, now);
    s.(status := if out.Done? then Put(m, s.self, c, Pinned, now) else PutError(m, s.self, c, ERR_RPC, now),
       daemon := IpfsPin(s.daemon, c, out), trouble := s.trouble || out.Failed?)
  }

  function UnpinSpec(s: State, c: Cid, out: Outcome, now: Time): State {
    s.(status := if out.Done? then Put(s.status, s.self, c, Unpinned, now)
                 else PutError(s.status, s.self, c, ERR_RPC, now),
       daemon := IpfsUnpin(s.daemon, c, out), trouble := s.trouble || out.Failed?)
  }

  function TrackSpec(s: State, arg: CidArg, out: Outcome, now: Time): State {
    var c := arg.cid;
    if IsRemote(s.self, arg) then
      var s1 := if StatusOf(s.status, c) == Pinned then UnpinSpec(s, c, out, now) else s;
      s1.(status := Put(s1.status, s.self, c, Remote, now))
    else
      var s1 := s.(status := Put(s.status, s.self, c, Pinning, now));
      if |s.pinCh| < s.capacity then s1.(pinCh := s.pinCh + [arg])
      else s1.(status := PutError(s1.status, s.self, c, ERR_PIN_QUEUE, now), trouble := true)
  }

  function UntrackSpec(s: State, c: Cid, now: Time): State {
    var s1 := s.(status := Put(s.status, s.self, c, Unpinning, now));
    if |s.unpinCh| < s.capacity then s1.(unpinCh := s.unpinCh + [ArgFor(c)])
    else s1.(status := PutError(s1.status, s.self, c, ERR_UNPIN_QUEUE, now), trouble := true)
  }

  function RecoverSpec(s: State, c: Cid, out: Outcome, now: Time): State {
    match StatusOf(s.status, c)
    case PinError => PinSpec(s, c, out, now)
    case UnpinError => UnpinSpec(s, c, out, now)
    case _ => s
  }

  function SyncOne(m: StatusMap, self: PeerId, c: Cid, pinned: bool, now: Time): StatusMap {
    ApplyUpdate(m, self, DecisionUpdate(c, SyncDecision(Lookup(m, self, c, now), pinned, now)), now)
  }

  /** `answer` is None when the daemon cannot be contacted. */
  function SyncSpec(s: State, c: Cid, answer: Option<Daemon>, now: Time): State {
    if answer.None? then s.(status := PutError(s.status, s.self, c, ERR_RPC, now), trouble := true)
    else s.(status := SyncOne(s.status, s.self, c, Holds(answer.value, c), now))
  }

  /** SyncAll against a listing: each tracked CID on its own. */
  function SyncAllMap(m: StatusMap, self: PeerId, listing: Daemon, now: Time): StatusMap {
    map c | c in m && c in SyncOne(m, self, c, Holds(listing, c), now) ::
      SyncOne(m, self, c, Holds(listing, c), now)[c]
  }

  /** What the pin worker leaves once it has emptied its queue, with one outcome per item. */
  ghost function ServePins(s: State, outs: seq<Outcome>, now: Time): State
    requires |outs| == |s.pinCh|
    decreases |outs|
  {
    if outs == [] then s
    else ServePins(PinSpec(s.(pinCh := s.pinCh[1..]), s.pinCh[0].cid, outs[0], now), outs[1..], now)
  }

  ghost function ServeUnpins(s: State, outs: seq<Outcome>, now: Time): State
    requires |outs| == |s.unpinCh|
    decreases |outs|
  {
    if outs == [] then s
    else ServeUnpins(UnpinSpec(s.(unpinCh := s.unpinCh[1..]), s.unpinCh[0].cid, outs[0], now), outs[1..], now)
  }

  // ---- what the workers achieve ---------------------------------------------------------------

  /** `i` is the last place of the queue that holds `c`. */
  ghost predicate LastInQueue(q: seq<CidArg>, i: nat, c: Cid) {
    i < |q| && q[i].cid == c && forall j :: i < j < |q| ==> q[j].cid != c
  }

  /** The worker empties its queue, leaves the CIDs not in it alone, and loses no pin. */
  lemma {:induction false} PinWorkerEmpties(s: State, outs: seq<Outcome>, now: Time, c: Cid)
    requires |outs| == |s.pinCh|
    ensures var s' := ServePins(s, outs, now);
      && s'.pinCh == [] && s'.unpinCh == s.unpinCh && s'.threads == s.threads
      && (Holds(s.daemon, c) ==> Holds(s'.daemon, c))
      && ((forall i :: 0 <= i < |s.pinCh| ==> s.pinCh[i].cid != c) ==>
            StatusOf(s'.status, c) == StatusOf(s.status, c) && IpfsStatus(s'.daemon, c) == IpfsStatus(s.daemon, c))
    decreases |outs|
  {
    if outs != [] {
      PinWorkerEmpties(PinSpec(s.(pinCh := s.pinCh[1..]), s.pinCh[0].cid, outs[0], now), outs[1..], now, c);
    }
  }

  /** Where `c` is when its pin by the worker has ended with `out`. */
  predicate PinServed(s: State, c: Cid, out: Outcome) {
    if out.Done? then StatusOf(s.status, c) == Pinned && Holds(s.daemon, c)
    else StatusOf(s.status, c) == PinError && s.trouble
  }

  /** Each queued CID ends Pinned and held by the daemon if its last pin succeeds, and in PinError
      if that one fails. */
  lemma {:induction false} PinWorkerServes(s: State, outs: seq<Outcome>, now: Time, c: Cid, i: nat)
    requires |outs| == |s.pinCh| && LastInQueue(s.pinCh, i, c)
    ensures PinServed(ServePins(s, outs, now), c, outs[i])
    decreases |outs|
  {
    var next := PinSpec(s.(pinCh := s.pinCh[1..]), s.pinCh[0].cid, outs[0], now);
    if i > 0 {
      PinWorkerServes(next, outs[1..], now, c, i - 1);
    } else {
      PinWorkerEmpties(next, outs[1..], now, c);
      PinWorkerRemembers(next, outs[1..], now);
    }
  }

  lemma {:induction false} PinWorkerRemembers(s: State, outs: seq<Outcome>, now: Time)
    requires |outs| == |s.pinCh|
    ensures s.trouble ==> ServePins(s, outs, now).trouble
    decreases |outs|
  {
    if outs != [] {
      PinWorkerRemembers(PinSpec(s.(pinCh := s.pinCh[1..]), s.pinCh[0].cid, outs[0], now), outs[1..], now);
    }
  }

  lemma {:induction false} UnpinWorkerEmpties(s: State, outs: seq<Outcome>, now: Time, c: Cid)
    requires |outs| == |s.unpinCh|
    ensures var s' := ServeUnpins(s, outs, now);
      && s'.unpinCh == [] && s'.pinCh == s.pinCh && s'.threads == s.threads
      && (!Holds(s.daemon, c) ==> !Holds(s'.daemon, c))
      && ((forall i :: 0 <= i < |s.unpinCh| ==> s.unpinCh[i].cid != c) ==>
            && (c in s'.status <==> c in s.status) && StatusOf(s'.status, c) == StatusOf(s.status, c)
            && IpfsStatus(s'.daemon, c) == IpfsStatus(s.daemon, c))
    decreases |outs|
  {
    if outs != [] {
      UnpinWorkerEmpties(UnpinSpec(s.(unpinCh := s.unpinCh[1..]), s.unpinCh[0].cid, outs[0], now), outs[1..], now, c);
    }
  }

  predicate ToBeUnpinned(s: State, c: Cid) {
    var st := StatusOf(s.status, c);
    st == Unpinning || st == Unpinned || st == UnpinError
  }

  predicate UnpinServed(s: State, s': State, c: Cid, out: Outcome) {
    if out.Done? then c !in s'.status && !Holds(s'.daemon, c)
    else ToBeUnpinned(s, c) ==> StatusOf(s'.status, c) == UnpinError
  }

  /** Each queued CID is dropped and no longer held if its last unpin succeeds, and ends in
      UnpinError if that one fails. */
  lemma {:induction false} UnpinWorkerServes(s: State, outs: seq<Outcome>, now: Time, c: Cid, i: nat)
    requires |outs| == |s.unpinCh| && LastInQueue(s.unpinCh, i, c)
    ensures UnpinServed(s, ServeUnpins(s, outs, now), c, outs[i])
    decreases |outs|
  {
    var next := UnpinSpec(s.(unpinCh := s.unpinCh[1..]), s.unpinCh[0].cid, outs[0], now);
    if i > 0 {
      UnpinWorkerServes(next, outs[1..], now, c, i - 1);
    } else {
      UnpinWorkerEmpties(next, outs[1..], now, c);
    }
  }

  // ---- the sequential forms are runs of the machine -------------------------------------------

  /** `t` runs to its end while nobody else moves. */
  ghost function Solo(s: State, t: Thread, env: Env): State
    requires t in s.threads && Early(t) == 0 && !t.StateSyncUntrack?
    decreases Rank(t)
  {
    var k := Next(s, t, env);
    if k.Becomes? then NextIsSmaller(s, t, env); Solo(Fire(s, t, env), k.t, env) else Fire(s, t, env)
  }

  lemma SoloGoesOn(s: State, t: Thread, env: Env)
    requires t in s.threads && Early(t) == 0 && !t.StateSyncUntrack?
    ensures !Next(s, t, env).Forks?
    ensures var k := Next(s, t, env);
      (k.Becomes? ==> Early(k.t) == 0 && !k.t.StateSyncUntrack? && Rank(k.t) < Rank(t) && k.t in Fire(s, t, env).threads)
  {
    hide ApplyUpdate, DaemonAfter, Trouble, UpdateOf;
    NextIsSmaller(s, t, env);
  }

  lemma {:induction false} SoloIsRun(s: State, t: Thread, env: Env)
    requires t in s.threads && Early(t) == 0 && !t.StateSyncUntrack?
    ensures Reaches(s, Solo(s, t, env))
    decreases Rank(t)
  {
    hide Fire, Next, Rank, Reaches;
    var k, s' := Next(s, t, env), Fire(s, t, env);
    if k.Becomes? {
      SoloGoesOn(s, t, env);
      SoloIsRun(s', k.t, env);
    } else {
      ReachesSelf(s');
    }
    assert Step(s, Run(t, env)) == s';
    StepThenReaches(s, Run(t, env), Solo(s, t, env));
  }

  /** A step and what follows, without the goroutine in the way. */
  lemma SoloStep(s: State, t: Thread, env: Env, k: Continuation, s1: State)
    requires Early(t) == 0 && !t.StateSyncUntrack? && k == Next(Add(s, t), t, env)
    requires s1 == Fire(Add(s, t), t, env).(threads := s.threads)
    ensures k.Ends? ==> Solo(Add(s, t), t, env) == s1
    ensures k.Becomes? ==> Early(k.t) == 0 && !k.t.StateSyncUntrack?
    ensures k.Becomes? ==> Solo(Add(s, t), t, env) == Solo(Add(s1, k.t), k.t, env)
  {
    hide ApplyUpdate, DaemonAfter, Trouble, UpdateOf, Next, Rank;
    var x := Fire(Add(s, t), t, env);
    assert Add(s, t).threads - multiset{t} == s.threads;
    SoloGoesOn(Add(s, t), t, env);
    match k
    case Ends => assert x.threads == s.threads;
    case Becomes(u) => assert x == Add(s1, u);
  }

  /** pin() called by the worker (`k` is FreeWorker) or by Recover. */
  lemma PinSolo(s: State, arg: CidArg, k: After, env: Env)
    ensures Solo(Add(s, PinSet(arg, k)), PinSet(arg, k), env)
         == PinSpec(s, arg.cid, env.out, env.now).(pinBusy := s.pinBusy && k != FreeWorker)
  {
    hide Solo;
    var s1 := s.(status := Put(s.status, s.self, arg.cid, Pinning, env.now));
    var s2 := s1.(daemon := IpfsPin(s.daemon, arg.cid, env.out), trouble := s.trouble || env.out.Failed?);
    SoloStep(s, PinSet(arg, k), env, Becomes(PinCall(arg, k)), s1);
    SoloStep(s1, PinCall(arg, k), env, Becomes(PinReturn(arg, env.out.Done?, k)), s2);
    PinReturnSolo(s2, arg, env.out.Done?, k, env);
  }

  lemma PinReturnSolo(s: State, arg: CidArg, ok: bool, k: After, env: Env)
    ensures Solo(Add(s, PinReturn(arg, ok, k)), PinReturn(arg, ok, k), env)
         == s.(status := if ok then Put(s.status, s.self, arg.cid, Pinned, env.now)
                         else PutError(s.status, s.self, arg.cid, ERR_RPC, env.now),
               pinBusy := s.pinBusy && k != FreeWorker)
  {
    hide Solo;
    var s' := s.(status := if ok then Put(s.status, s.self, arg.cid, Pinned, env.now)
                           else PutError(s.status, s.self, arg.cid, ERR_RPC, env.now),
                 pinBusy := s.pinBusy && k != FreeWorker);
    SoloStep(s, PinReturn(arg, ok, k), env, Ends, s');
  }

  lemma UnpinReturnSolo(s: State, arg: CidArg, ok: bool, k: After, env: Env)
    requires k != MarkRemote
    ensures Solo(Add(s, UnpinReturn(arg, ok, k)), UnpinReturn(arg, ok, k), env)
         == s.(status := if ok then Put(s.status, s.self, arg.cid, Unpinned, env.now)
                         else PutError(s.status, s.self, arg.cid, ERR_RPC, env.now),
               unpinBusy := s.unpinBusy && k != FreeWorker)
  {
    hide Solo;
    var s' := s.(status := if ok then Put(s.status, s.self, arg.cid, Unpinned, env.now)
                           else PutError(s.status, s.self, arg.cid, ERR_RPC, env.now),
                 unpinBusy := s.unpinBusy && k != FreeWorker);
    SoloStep(s, UnpinReturn(arg, ok, k), env, Ends, s');
  }

  lemma UnpinSolo(s: State, arg: CidArg, k: After, env: Env)
    requires k != MarkRemote
    ensures Solo(Add(s, UnpinCall(arg, k)), UnpinCall(arg, k), env)
         == UnpinSpec(s, arg.cid, env.out, env.now).(unpinBusy := s.unpinBusy && k != FreeWorker)
  {
    hide Solo;
    var s1 := s.(daemon := IpfsUnpin(s.daemon, arg.cid, env.out), trouble := s.trouble || env.out.Failed?);
    SoloStep(s, UnpinCall(arg, k), env, Becomes(UnpinReturn(arg, env.out.Done?, k)), s1);
    UnpinReturnSolo(s1, arg, env.out.Done?, k, env);
  }

  lemma RemoteSolo(s: State, arg: CidArg, env: Env)
    ensures Solo(Add(s, TrackSetRemote(arg)), TrackSetRemote(arg), env)
         == s.(status := Put(s.status, s.self, arg.cid, Remote, env.now))
  {
    hide Solo;
    SoloStep(s, TrackSetRemote(arg), env, Ends, s.(status := Put(s.status, s.self, arg.cid, Remote, env.now)));
  }

  lemma RemoteUnpinSolo(s: State, arg: CidArg, env: Env)
    ensures var s' := UnpinSpec(s, arg.cid, env.out, env.now);
      Solo(Add(s, UnpinCall(arg, MarkRemote)), UnpinCall(arg, MarkRemote), env)
      == s'.(status := Put(s'.status, s.self, arg.cid, Remote, env.now))
  {
    hide Solo;
    var s1 := s.(daemon := IpfsUnpin(s.daemon, arg.cid, env.out), trouble := s.trouble || env.out.Failed?);
    var s2 := UnpinSpec(s, arg.cid, env.out, env.now);
    SoloStep(s, UnpinCall(arg, MarkRemote), env, Becomes(UnpinReturn(arg, env.out.Done?, MarkRemote)), s1);
    SoloStep(s1, UnpinReturn(arg, env.out.Done?, MarkRemote), env, Becomes(TrackSetRemote(arg)), s2);
    RemoteSolo(s2, arg, env);
  }

  lemma EnqueuePinSolo(s: State, arg: CidArg, env: Env)
    ensures Solo(Add(s, TrackEnqueue(arg)), TrackEnqueue(arg), env)
         == if |s.pinCh| < s.capacity then s.(pinCh := s.pinCh + [arg])
            else s.(status := PutError(s.status, s.self, arg.cid, ERR_PIN_QUEUE, env.now), trouble := true)
  {
    hide Solo;
    if |s.pinCh| < s.capacity {
      SoloStep(s, TrackEnqueue(arg), env, Ends, s.(pinCh := s.pinCh + [arg]));
    } else {
      var s1 := s.(trouble := true);
      SoloStep(s, TrackEnqueue(arg), env, Becomes(TrackFull(arg)), s1);
      SoloStep(s1, TrackFull(arg), env, Ends,
               s1.(status := PutError(s.status, s.self, arg.cid, ERR_PIN_QUEUE, env.now)));
    }
  }

  lemma LocalTrackSolo(s: State, arg: CidArg, env: Env)
    requires !IsRemote(s.self, arg)
    ensures Solo(Add(s, TrackSet(arg)), TrackSet(arg), env) == TrackSpec(s, arg, env.out, env.now)
  {
    hide Solo;
    var s1 := s.(status := Put(s.status, s.self, arg.cid, Pinning, env.now));
    SoloStep(s, TrackSet(arg), env, Becomes(TrackEnqueue(arg)), s1);
    EnqueuePinSolo(s1, arg, env);
  }

  lemma TrackSolo(s: State, arg: CidArg, env: Env)
    ensures var t := TrackStart(s.self, arg);
      Solo(Add(s, t), t, env) == TrackSpec(s, arg, env.out, env.now)
  {
    hide Solo;
    if !IsRemote(s.self, arg) {
      LocalTrackSolo(s, arg, env);
    } else if StatusOf(s.status, arg.cid) == Pinned {
      SoloStep(s, TrackGet(arg), env, Becomes(UnpinCall(arg, MarkRemote)), s);
      RemoteUnpinSolo(s, arg, env);
    } else {
      SoloStep(s, TrackGet(arg), env, Becomes(TrackSetRemote(arg)), s);
      RemoteSolo(s, arg, env);
    }
  }

  lemma EnqueueUnpinSolo(s: State, c: Cid, env: Env)
    ensures Solo(Add(s, UntrackEnqueue(c)), UntrackEnqueue(c), env)
         == if |s.unpinCh| < s.capacity then s.(unpinCh := s.unpinCh + [ArgFor(c)])
            else s.(status := PutError(s.status, s.self, c, ERR_UNPIN_QUEUE, env.now), trouble := true)
  {
    hide Solo;
    if |s.unpinCh| < s.capacity {
      SoloStep(s, UntrackEnqueue(c), env, Ends, s.(unpinCh := s.unpinCh + [ArgFor(c)]));
    } else {
      var s1 := s.(trouble := true);
      SoloStep(s, UntrackEnqueue(c), env, Becomes(UntrackFull(c)), s1);
      SoloStep(s1, UntrackFull(c), env, Ends,
               s1.(status := PutError(s.status, s.self, c, ERR_UNPIN_QUEUE, env.now)));
    }
  }

  lemma UntrackSolo(s: State, c: Cid, env: Env)
    ensures Solo(Add(s, UntrackSet(c)), UntrackSet(c), env) == UntrackSpec(s, c, env.now)
  {
    hide Solo;
    var s1 := s.(status := Put(s.status, s.self, c, Unpinning, env.now));
    SoloStep(s, UntrackSet(c), env, Becomes(UntrackEnqueue(c)), s1);
    EnqueueUnpinSolo(s1, c, env);
  }

  lemma RecoverNext(s: State, c: Cid, env: Env)
    ensures Next(s, RecoverGet(c), env)
         == match StatusOf(s.status, c)
            case PinError => Becomes(PinSet(ArgFor(c), Return))
            case UnpinError => Becomes(UnpinCall(ArgFor(c), Return))
            case _ => Ends
    ensures PinSpec(s, c, env.out, env.now).(pinBusy := s.pinBusy) == PinSpec(s, c, env.out, env.now)
    ensures UnpinSpec(s, c, env.out, env.now).(unpinBusy := s.unpinBusy) == UnpinSpec(s, c, env.out, env.now)
  {
    hide Put, PutError, IpfsPin, IpfsUnpin;
  }

  lemma RecoverSolo(s: State, c: Cid, env: Env)
    ensures Solo(Add(s, RecoverGet(c)), RecoverGet(c), env) == RecoverSpec(s, c, env.out, env.now)
  {
    hide Solo, PinSpec, UnpinSpec, Put, PutError, IpfsPin, IpfsUnpin, Next;
    RecoverNext(s, c, env);
    RecoverNext(Add(s, RecoverGet(c)), c, env);
    match StatusOf(s.status, c)
    case PinError =>
      SoloStep(s, RecoverGet(c), env, Becomes(PinSet(ArgFor(c), Return)), s);
      PinSolo(s, ArgFor(c), Return, env);
    case UnpinError =>
      SoloStep(s, RecoverGet(c), env, Becomes(UnpinCall(ArgFor(c), Return)), s);
      UnpinSolo(s, ArgFor(c), Return, env);
    case _ =>
      SoloStep(s, RecoverGet(c), env, Ends, s);
  }

  lemma SyncGetSolo(s: State, c: Cid, pinned: bool, env: Env)
    ensures Solo(Add(s, SyncGet(c, pinned)), SyncGet(c, pinned), env)
         == s.(status := SyncOne(s.status, s.self, c, pinned, env.now))
  {
    hide Solo;
    var d := SyncDecision(Lookup(s.status, s.self, c, env.now), pinned, env.now);
    SoloStep(s, SyncGet(c, pinned), env, Becomes(SyncAct(c, d)), s);
    SoloStep(s, SyncAct(c, d), env, Ends, s.(status := SyncOne(s.status, s.self, c, pinned, env.now)));
  }

  lemma SyncSolo(s: State, c: Cid, env: Env)
    ensures Solo(Add(s, SyncCall(c)), SyncCall(c), env) == SyncSpec(s, c, env.answer, env.now)
  {
    hide Solo;
    if env.answer.None? {
      SoloStep(s, SyncCall(c), env, Becomes(SyncFailed(c)), s.(trouble := true));
      SoloStep(s.(trouble := true), SyncFailed(c), env, Ends, SyncSpec(s, c, env.answer, env.now));
    } else {
      var pinned := Holds(env.answer.value, c);
      SoloStep(s, SyncCall(c), env, Becomes(SyncGet(c, pinned)), s);
      SyncGetSolo(s, c, pinned, env);
    }
  }

  /** Track, run alone, is one interleaving of the machine. */
  lemma TrackIsRun(s: State, arg: CidArg, env: Env)
    ensures Reaches(Add(s, TrackStart(s.self, arg)), TrackSpec(s, arg, env.out, env.now))
  {
    TrackSolo(s, arg, env);
    SoloIsRun(Add(s, TrackStart(s.self, arg)), TrackStart(s.self, arg), env);
  }

  lemma UntrackIsRun(s: State, c: Cid, env: Env)
    ensures Reaches(Add(s, UntrackSet(c)), UntrackSpec(s, c, env.now))
  {
    UntrackSolo(s, c, env);
    SoloIsRun(Add(s, UntrackSet(c)), UntrackSet(c), env);
  }

  /** pin() as Recover calls it. */
  lemma PinIsRun(s: State, arg: CidArg, env: Env)
    ensures Reaches(Add(s, PinSet(arg, Return)), PinSpec(s, arg.cid, env.out, env.now))
  {
    hide Reaches, PinSpec;
    PinSolo(s, arg, Return, env);
    RecoverNext(s, arg.cid, env);
    SoloIsRun(Add(s, PinSet(arg, Return)), PinSet(arg, Return), env);
  }

  lemma UnpinIsRun(s: State, arg: CidArg, env: Env)
    ensures Reaches(Add(s, UnpinCall(arg, Return)), UnpinSpec(s, arg.cid, env.out, env.now))
  {
    hide Reaches, UnpinSpec;
    UnpinSolo(s, arg, Return, env);
    RecoverNext(s, arg.cid, env);
    SoloIsRun(Add(s, UnpinCall(arg, Return)), UnpinCall(arg, Return), env);
  }

  lemma RecoverIsRun(s: State, c: Cid, env: Env)
    ensures Reaches(Add(s, RecoverGet(c)), RecoverSpec(s, c, env.out, env.now))
  {
    RecoverSolo(s, c, env);
    SoloIsRun(Add(s, RecoverGet(c)), RecoverGet(c), env);
  }

  lemma SyncIsRun(s: State, c: Cid, env: Env)
    ensures Reaches(Add(s, SyncCall(c)), SyncSpec(s, c, env.answer, env.now))
  {
    SyncSolo(s, c, env);
    SoloIsRun(Add(s, SyncCall(c)), SyncCall(c), env);
  }

  lemma ServePinIsRun(s: State, out: Outcome, now: Time)
    requires !s.pinBusy && s.pinCh != []
    ensures Reaches(s, PinSpec(s.(pinCh := s.pinCh[1..]), s.pinCh[0].cid, out, now))
  {
    hide Reaches, Solo, PinSpec;
    var arg, env := s.pinCh[0], Env(out, None, [], now);
    var taken := s.(pinCh := s.pinCh[1..], pinBusy := true);
    var end := PinSpec(s.(pinCh := s.pinCh[1..]), arg.cid, out, now);
    PinSolo(taken, arg, FreeWorker, env);
    SoloIsRun(Add(taken, PinSet(arg, FreeWorker)), PinSet(arg, FreeWorker), env);
    PinSpecWorker(s, taken, arg.cid, out, now);
    assert Step(s, TakePin) == Add(taken, PinSet(arg, FreeWorker));
    StepThenReaches(s, TakePin, end);
  }

  lemma PinSpecWorker(s: State, taken: State, c: Cid, out: Outcome, now: Time)
    requires !s.pinBusy && s.pinCh != [] && taken == s.(pinCh := s.pinCh[1..], pinBusy := true)
    ensures PinSpec(taken, c, out, now).(pinBusy := false) == PinSpec(s.(pinCh := s.pinCh[1..]), c, out, now)
    ensures !PinSpec(s.(pinCh := s.pinCh[1..]), c, out, now).pinBusy
    ensures PinSpec(s.(pinCh := s.pinCh[1..]), c, out, now).pinCh == s.pinCh[1..]
  {
  }

  /** Emptying the queue of an idle pin worker is a run of the machine. */
  lemma {:induction false} ServePinsIsRun(s: State, outs: seq<Outcome>, now: Time)
    requires !s.pinBusy && |outs| == |s.pinCh|
    ensures Reaches(s, ServePins(s, outs, now))
    decreases |outs|
  {
    hide Reaches, PinSpec;
    if outs == [] {
      ReachesSelf(s);
    } else {
      var next := PinSpec(s.(pinCh := s.pinCh[1..]), s.pinCh[0].cid, outs[0], now);
      PinSpecWorker(s, s.(pinCh := s.pinCh[1..], pinBusy := true), s.pinCh[0].cid, outs[0], now);
      ServePinIsRun(s, outs[0], now);
      ServePinsIsRun(next, outs[1..], now);
      ReachesOn(s, next, ServePins(s, outs, now));
    }
  }

  lemma ServeUnpinIsRun(s: State, out: Outcome, now: Time)
    requires !s.unpinBusy && s.unpinCh != []
    ensures Reaches(s, UnpinSpec(s.(unpinCh := s.unpinCh[1..]), s.unpinCh[0].cid, out, now))
  {
    hide Reaches, Solo, UnpinSpec;
    var arg, env := s.unpinCh[0], Env(out, None, [], now);
    var taken := s.(unpinCh := s.unpinCh[1..], unpinBusy := true);
    var end := UnpinSpec(s.(unpinCh := s.unpinCh[1..]), arg.cid, out, now);
    UnpinSolo(taken, arg, FreeWorker, env);
    SoloIsRun(Add(taken, UnpinCall(arg, FreeWorker)), UnpinCall(arg, FreeWorker), env);
    UnpinSpecWorker(s, taken, arg.cid, out, now);
    assert Step(s, TakeUnpin) == Add(taken, UnpinCall(arg, FreeWorker));
    StepThenReaches(s, TakeUnpin, end);
  }

  lemma UnpinSpecWorker(s: State, taken: State, c: Cid, out: Outcome, now: Time)
    requires !s.unpinBusy && s.unpinCh != [] && taken == s.(unpinCh := s.unpinCh[1..], unpinBusy := true)
    ensures UnpinSpec(taken, c, out, now).(unpinBusy := false) == UnpinSpec(s.(unpinCh := s.unpinCh[1..]), c, out, now)
    ensures !UnpinSpec(s.(unpinCh := s.unpinCh[1..]), c, out, now).unpinBusy
    ensures UnpinSpec(s.(unpinCh := s.unpinCh[1..]), c, out, now).unpinCh == s.unpinCh[1..]
  {
  }

  lemma {:induction false} ServeUnpinsIsRun(s: State, outs: seq<Outcome>, now: Time)
    requires !s.unpinBusy && |outs| == |s.unpinCh|
    ensures Reaches(s, ServeUnpins(s, outs, now))
    decreases |outs|
  {
    hide Reaches, UnpinSpec;
    if outs == [] {
      ReachesSelf(s);
    } else {
      var next := UnpinSpec(s.(unpinCh := s.unpinCh[1..]), s.unpinCh[0].cid, outs[0], now);
      UnpinSpecWorker(s, s.(unpinCh := s.unpinCh[1..], unpinBusy := true), s.unpinCh[0].cid, outs[0], now);
      ServeUnpinIsRun(s, outs[0], now);
      ServeUnpinsIsRun(next, outs[1..], now);
      ReachesOn(s, next, ServeUnpins(s, outs, now));
    }
  }
}
