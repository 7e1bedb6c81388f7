/** The commit loops of the consensus component (consensus.go), with the network as an oracle. */
module Consensus {
  import opened Types
  import opened SharedState
  import opened LogReplay

  /** How redirectToLeader ends: we lead, the leader took the operation, or an error. */
  datatype Redirect = Leading | Redirected | RedirectFailed

  /** One iteration. `before` is what other clients get committed meanwhile; a failed commit did not
      reach the log; `raft` is the answer of raft.AddPeer or raft.RemovePeer. */
  datatype Attempt = Attempt(before: seq<LogOp>, redirect: Redirect, committed: bool, raft: bool)

  /** `others` and `suffix`: what reached the log without and with our copies. */
  datatype Outcome = Outcome(err: bool, others: seq<LogOp>, suffix: seq<LogOp>, copies: nat, members: set<PeerId>)

  function Prepend(before: seq<LogOp>, own: seq<LogOp>, rest: Outcome): Outcome {
    rest.(others := before + rest.others, suffix := before + own + rest.suffix, copies := |own| + rest.copies)
  }

  /** logOpCid with one attempt per retry. */
  function LogCid(op: LogOp, attempts: seq<Attempt>, err: bool): Outcome {
    if attempts == [] then Outcome(err, [], [], 0, {})
    else
      var a, rest := attempts[0], attempts[1..];
      match a.redirect
      case RedirectFailed => Prepend(a.before, [], LogCid(op, rest, true))
      case Redirected => Outcome(false, a.before, a.before, 0, {})
      case Leading =>
        if a.committed then Outcome(false, a.before, a.before + [op], 1, {})
        else Prepend(a.before, [], LogCid(op, rest, true))
  }

  /** A change to the Raft peer set. */
  datatype Change = AddMember | RemoveMember

  function ChangeMembers(members: set<PeerId>, ch: Change, p: PeerId): set<PeerId> {
    if ch.AddMember? then members + {p} else members - {p}
  }

  /** LogAddPeer and LogRmPeer. `pid` is None when the address of a new peer cannot be split. */
  function LogPeer(op: LogOp, ch: Change, pid: Option<PeerId>, attempts: seq<Attempt>, err: bool,
                   members: set<PeerId>): Outcome {
    if attempts == [] then Outcome(err, [], [], 0, members)
    else
      var a, rest := attempts[0], attempts[1..];
      match a.redirect
      case RedirectFailed => Prepend(a.before, [], LogPeer(op, ch, pid, rest, true, members))
      case Redirected => Outcome(false, a.before, a.before, 0, members)
      case Leading =>
        if pid.None? then Outcome(true, a.before, a.before, 0, members)
        else if !a.committed then Prepend(a.before, [], LogPeer(op, ch, pid, rest, true, members))
        else if !a.raft then Prepend(a.before, [op], LogPeer(op, ch, pid, rest, true, members))
        else Outcome(false, a.before, a.before + [op], 1, ChangeMembers(members, ch, pid.value))
  }

  // ---- where the loops end ----------------------------------------------------------------------

  /** What other clients got committed during these attempts. */
  function Others(attempts: seq<Attempt>): seq<LogOp> {
    if attempts == [] then [] else attempts[0].before + Others(attempts[1..])
  }

  /** The leader took the operation, or we are the leader and it reached the log. */
  predicate Concludes(a: Attempt) {
    a.redirect == Redirected || (a.redirect == Leading && a.committed)
  }

  ghost predicate FirstToConclude(attempts: seq<Attempt>, k: nat) {
    k < |attempts| && Concludes(attempts[k]) && forall j :: 0 <= j < k ==> !Concludes(attempts[j])
  }

  /** The outcome of a call that ends at attempt `k`. */
  function Concluded(op: LogOp, attempts: seq<Attempt>, k: nat): Outcome
    requires k < |attempts|
  {
    var others := Others(attempts[..k + 1]);
    if attempts[k].redirect == Leading then Outcome(false, others, others + [op], 1, {})
    else Outcome(false, others, others, 0, {})
  }

  lemma ConcludedLater(op: LogOp, attempts: seq<Attempt>, k: nat)
    requires 0 < k < |attempts|
    ensures Concluded(op, attempts, k) == Prepend(attempts[0].before, [], Concluded(op, attempts[1..], k - 1))
  {
    assert attempts[..k + 1][1..] == attempts[1..][..k];
    var before, rest := attempts[0].before, Others(attempts[1..][..k]);
    assert before + [] + (rest + [op]) == before + rest + [op] && before + [] + rest == before + rest;
  }

  lemma ConcludedFirst(op: LogOp, attempts: seq<Attempt>, err: bool)
    requires attempts != [] && Concludes(attempts[0])
    ensures LogCid(op, attempts, err) == Concluded(op, attempts, 0) && !LogCid(op, attempts, err).err
  {
    assert attempts[..1][1..] == [] && Others(attempts[..1]) == attempts[0].before + Others([]);
  }

  lemma FirstMoves(attempts: seq<Attempt>, k: nat)
    requires 0 < k && attempts != [] && !Concludes(attempts[0])
    ensures FirstToConclude(attempts, k) <==> FirstToConclude(attempts[1..], k - 1)
  {
    hide Concludes;
    var rest := attempts[1..];
    assert forall j :: 0 <= j < |rest| ==> rest[j] == attempts[j + 1];
    assert forall j :: 1 <= j < |attempts| ==> attempts[j] == rest[j - 1];
  }

  /** LogPin and LogUnpin on any peer: the call succeeds if and only if some attempt is redirected or
      commits, it ends at the first such attempt, and it adds one copy of its own, at the end, exactly
      when that attempt is a commit of ours. */
  lemma {:induction false} CidCommittedOnce(op: LogOp, attempts: seq<Attempt>, err: bool)
    requires attempts == [] ==> err
    ensures var r := LogCid(op, attempts, err);
      && (!r.err <==> exists k: nat :: FirstToConclude(attempts, k))
      && (r.err ==> r.others == Others(attempts) && r.suffix == r.others && r.copies == 0)
      && (forall k: nat :: FirstToConclude(attempts, k) ==> r == Concluded(op, attempts, k))
    decreases |attempts|
  {
    hide FirstToConclude, Concluded;
    if attempts == [] {
      NoneConcludes();
    } else if Concludes(attempts[0]) {
      ConcludedFirst(op, attempts, err);
      OnlyFirst(attempts);
      assert FirstToConclude(attempts, 0);
    } else {
      var rest := attempts[1..];
      CidCommittedOnce(op, rest, true);
      NotFirst(attempts);
      forall k: nat | k > 0
        ensures FirstToConclude(attempts, k) <==> FirstToConclude(rest, k - 1)
      {
        FirstMoves(attempts, k);
      }
      forall k: nat | FirstToConclude(attempts, k)
        ensures k < |attempts| && LogCid(op, attempts, err) == Concluded(op, attempts, k)
      {
        InRange(attempts, k);
        ConcludedLater(op, attempts, k);
      }
      if k: nat :| FirstToConclude(rest, k) {
        assert FirstToConclude(attempts, k + 1);
      }
    }
  }

  lemma NoneConcludes()
    ensures forall k: nat :: !FirstToConclude([], k)
  {
  }

  lemma OnlyFirst(attempts: seq<Attempt>)
    requires attempts != [] && Concludes(attempts[0])
    ensures forall k: nat :: FirstToConclude(attempts, k) <==> k == 0
  {
  }

  lemma NotFirst(attempts: seq<Attempt>)
    requires attempts != [] && !Concludes(attempts[0])
    ensures !FirstToConclude(attempts, 0)
  {
  }

  lemma InRange(attempts: seq<Attempt>, k: nat)
    requires FirstToConclude(attempts, k)
    ensures k < |attempts|
  {
  }

  lemma PrependSuffix(before: seq<LogOp>, own: seq<LogOp>, rest: Outcome, log: seq<LogOp>)
    ensures var o := Prepend(before, own, rest);
      o.err == rest.err && o.members == rest.members && log + o.suffix == log + before + own + rest.suffix
      && (own == [] ==> log + before + own == log + before)
  {
  }

  class ConsensusLog {
    var log: seq<LogOp>
    var raftPeers: set<PeerId>

    constructor (raftPeers: set<PeerId>)
      ensures log == [] && this.raftPeers == raftPeers
    {
      log, this.raftPeers := [], raftPeers;
    }

    lemma EndsAsSaid(op: LogOp, attempts: seq<Attempt>, log: seq<LogOp>)
      ensures var r := LogCid(op, attempts, false);
        && (attempts != [] ==> (!r.err <==> exists k: nat :: FirstToConclude(attempts, k)))
        && (forall k: nat :: FirstToConclude(attempts, k) ==>
              log + r.suffix == log + Others(attempts[..k + 1]) + if attempts[k].redirect == Leading then [op] else [])
        && (attempts != [] && r.err ==> log + r.suffix == log + Others(attempts))
    {
      hide LogCid;
      if attempts != [] {
        CidCommittedOnce(op, attempts, false);
      }
    }

    method LogOpCid(op: LogOp, attempts: seq<Attempt>) returns (err: bool)
      modifies this
      ensures err == LogCid(op, attempts, false).err
      ensures log == old(log) + LogCid(op, attempts, false).suffix && raftPeers == old(raftPeers)
      ensures attempts != [] ==> (!err <==> exists k: nat :: FirstToConclude(attempts, k))
      ensures forall k: nat :: FirstToConclude(attempts, k) ==>
        log == old(log) + Others(attempts[..k + 1]) + if attempts[k].redirect == Leading then [op] else []
      ensures attempts != [] && err ==> log == old(log) + Others(attempts)
    {
      hide FirstToConclude, Others, Concludes;
      EndsAsSaid(op, attempts, log);
      var finalErr := false;
      ghost var goal := LogCid(op, attempts, false);
      for i := 0 to |attempts|
        invariant raftPeers == old(raftPeers)
        invariant goal.err == LogCid(op, attempts[i..], finalErr).err
        invariant old(log) + goal.suffix == log + LogCid(op, attempts[i..], finalErr).suffix
      {
        var a := attempts[i];
        assert attempts[i..][1..] == attempts[i + 1..];
        log := log + a.before;
        if a.redirect == RedirectFailed {
          finalErr := true;
          continue;
        }
        if a.redirect == Redirected {
          return false;
        }
        if !a.committed {
          finalErr := true;
          continue;
        }
        log := log + [op];
        return false;
      }
      err := finalErr;
    }

    /** The loop that LogAddPeer and LogRmPeer share. */
    method LogOpPeer(op: LogOp, ch: Change, pid: Option<PeerId>, attempts: seq<Attempt>) returns (err: bool)
      modifies this
      ensures var r := LogPeer(op, ch, pid, attempts, false, old(raftPeers));
        err == r.err && log == old(log) + r.suffix && raftPeers == r.members
    {
      hide ChangeMembers, Prepend;
      var finalErr := false;
      ghost var goal := LogPeer(op, ch, pid, attempts, false, raftPeers);
      for i := 0 to |attempts|
        invariant goal.err == LogPeer(op, ch, pid, attempts[i..], finalErr, raftPeers).err
        invariant goal.members == LogPeer(op, ch, pid, attempts[i..], finalErr, raftPeers).members
        invariant old(log) + goal.suffix == log + LogPeer(op, ch, pid, attempts[i..], finalErr, raftPeers).suffix
      {
        var a := attempts[i];
        assert attempts[i..][1..] == attempts[i + 1..];
        PrependSuffix(a.before, [], LogPeer(op, ch, pid, attempts[i + 1..], true, raftPeers), log);
        PrependSuffix(a.before, [op], LogPeer(op, ch, pid, attempts[i + 1..], true, raftPeers), log);
        log := log + a.before;
        if a.redirect == RedirectFailed {
          finalErr := true;
          continue;
        }
        if a.redirect == Redirected {
          return false;
        }
        if pid.None? {
          return true;
        }
        if !a.committed {
          finalErr := true;
          continue;
        }
        log := log + [op];
        if !a.raft {
          finalErr := true;
          continue;
        }
        raftPeers := ChangeMembers(raftPeers, ch, pid.value);
        return false;
      }
      err := finalErr;
    }

    method LogPin(arg: CidArg, attempts: seq<Attempt>) returns (err: bool)
      modifies this
      ensures err == LogCid(PinOp(arg), attempts, false).err
      ensures log == old(log) + LogCid(PinOp(arg), attempts, false).suffix && raftPeers == old(raftPeers)
      ensures attempts != [] ==> (!err <==> exists k: nat :: FirstToConclude(attempts, k))
      ensures forall k: nat :: FirstToConclude(attempts, k) ==>
        log == old(log) + Others(attempts[..k + 1]) + if attempts[k].redirect == Leading then [PinOp(arg)] else []
    {
      err := LogOpCid(PinOp(arg), attempts);
    }

    method LogUnpin(arg: CidArg, attempts: seq<Attempt>) returns (err: bool)
      modifies this
      ensures err == LogCid(UnpinOp(arg), attempts, false).err
      ensures log == old(log) + LogCid(UnpinOp(arg), attempts, false).suffix && raftPeers == old(raftPeers)
      ensures attempts != [] ==> (!err <==> exists k: nat :: FirstToConclude(attempts, k))
      ensures forall k: nat :: FirstToConclude(attempts, k) ==>
        log == old(log) + Others(attempts[..k + 1]) + if attempts[k].redirect == Leading then [UnpinOp(arg)] else []
    {
      err := LogOpCid(UnpinOp(arg), attempts);
    }

    method LogAddPeer(addr: Multiaddr, attempts: seq<Attempt>) returns (err: bool)
      modifies this
      ensures var r := LogPeer(AddPeerOp(addr), AddMember, addr.peer, attempts, false, old(raftPeers));
        err == r.err && log == old(log) + r.suffix && raftPeers == r.members
      ensures forall k: nat :: FirstToEnd(attempts, addr.peer, k) ==>
        && log == old(log) + Appended(AddPeerOp(addr), attempts[..k + 1], addr.peer)
        && err == (attempts[k].redirect == Leading && addr.peer.None?)
        && raftPeers == (if attempts[k].redirect == Leading && addr.peer.Some? then old(raftPeers) + {addr.peer.value}
                         else old(raftPeers))
    {
      forall k: nat | FirstToEnd(attempts, addr.peer, k) {
        PeerEnds(AddPeerOp(addr), AddMember, addr.peer, attempts, false, raftPeers, k);
      }
      err := LogOpPeer(AddPeerOp(addr), AddMember, addr.peer, attempts);
    }

    method LogRmPeer(pid: PeerId, attempts: seq<Attempt>) returns (err: bool)
      modifies this
      ensures var r := LogPeer(RmPeerOp(IdAddr(pid)), RemoveMember, Some(pid), attempts, false, old(raftPeers));
        err == r.err && log == old(log) + r.suffix && raftPeers == r.members
      ensures forall k: nat :: FirstToEnd(attempts, Some(pid), k) ==>
        && log == old(log) + Appended(RmPeerOp(IdAddr(pid)), attempts[..k + 1], Some(pid))
        && !err
        && raftPeers == (if attempts[k].redirect == Leading then old(raftPeers) - {pid} else old(raftPeers))
    {
      forall k: nat | FirstToEnd(attempts, Some(pid), k) {
        PeerEnds(RmPeerOp(IdAddr(pid)), RemoveMember, Some(pid), attempts, false, raftPeers, k);
      }
      err := LogOpPeer(RmPeerOp(IdAddr(pid)), RemoveMember, Some(pid), attempts);
    }
  }

  // ---- retries are harmless -----------------------------------------------------------------------

  ghost predicate NeverRedirects(attempts: seq<Attempt>) {
    forall i :: 0 <= i < |attempts| ==> !attempts[i].redirect.Redirected?
  }

  ghost predicate Commits(a: Attempt) {
    a.redirect.Leading? && a.committed
  }

  /** LogPin and LogUnpin on the leader: one copy, at the end, if and only if some attempt commits;
      otherwise an error and no copy. */
  lemma LeaderCommitsOnce(op: LogOp, attempts: seq<Attempt>, err: bool)
    requires NeverRedirects(attempts) && (attempts == [] ==> err)
    ensures var r := LogCid(op, attempts, err);
      && (!r.err <==> exists i :: 0 <= i < |attempts| && Commits(attempts[i]))
      && r.suffix == (if r.err then r.others else r.others + [op])
      && r.copies == (if r.err then 0 else 1)
  {
    CidCommittedOnce(op, attempts, err);
    var r := LogCid(op, attempts, err);
    if !r.err {
      var k: nat :| FirstToConclude(attempts, k);
      assert Commits(attempts[k]);
    }
    if i :| 0 <= i < |attempts| && Commits(attempts[i]) {
      FirstExists(attempts, i);
    }
  }

  lemma {:induction false} FirstExists(attempts: seq<Attempt>, i: nat)
    requires i < |attempts| && Concludes(attempts[i])
    ensures exists k: nat :: FirstToConclude(attempts, k)
  {
    if j :| 0 <= j < i && Concludes(attempts[j]) {
      FirstExists(attempts, j);
    } else {
      assert FirstToConclude(attempts, i);
    }
  }

  /** Without any retry the call would succeed and commit nothing. */
  lemma NoAttemptNoCommit(op: LogOp)
    ensures LogCid(op, [], false) == Outcome(false, [], [], 0, {})
  {
  }

  /** A successful leader-side LogAddPeer or LogRmPeer commits between one and as many copies as
      attempts, the last of them ends the call, and the Raft peer set has changed once. */
  lemma {:induction false} PeerCopies(op: LogOp, ch: Change, pid: Option<PeerId>, attempts: seq<Attempt>,
                                      err: bool, members: set<PeerId>)
    requires NeverRedirects(attempts) && (attempts == [] ==> err)
    requires !LogPeer(op, ch, pid, attempts, err, members).err
    ensures var o := LogPeer(op, ch, pid, attempts, err, members);
      && 1 <= o.copies <= |attempts| && |o.suffix| == |o.others| + o.copies
      && o.suffix != [] && o.suffix[|o.suffix| - 1] == op
      && pid.Some? && o.members == ChangeMembers(members, ch, pid.value)
    decreases |attempts|
  {
    hide ChangeMembers, Prepend;
    var a, rest := attempts[0], attempts[1..];
    assert forall i :: 0 <= i < |rest| ==> rest[i] == attempts[i + 1];
    if !(Commits(a) && a.raft) {
      var own, o' := if Commits(a) then [op] else [], LogPeer(op, ch, pid, rest, true, members);
      PrependKeeps(a.before, own, o');
      PeerCopies(op, ch, pid, rest, true, members);
    }
  }

  lemma PrependKeeps(before: seq<LogOp>, own: seq<LogOp>, o': Outcome)
    ensures var o := Prepend(before, own, o');
      && o.err == o'.err && o.members == o'.members && o.copies == |own| + o'.copies
      && |o.suffix| - |o.others| == |o'.suffix| - |o'.others| + |own|
      && (o'.suffix != [] ==> o.suffix != [] && o.suffix[|o.suffix| - 1] == o'.suffix[|o'.suffix| - 1])
  {
  }

  /** And the log replays as if only the last copy had been committed, whatever is committed in between. */
  lemma {:induction false} PeerCopiesHarmless(op: LogOp, ch: Change, pid: Option<PeerId>, attempts: seq<Attempt>,
                                              err: bool, members: set<PeerId>, log: seq<LogOp>, r: Replica)
    requires NeverRedirects(attempts) && (attempts == [] ==> err)
    requires KeyOf(op) != Nothing && !LogPeer(op, ch, pid, attempts, err, members).err
    ensures var o := LogPeer(op, ch, pid, attempts, err, members);
      Replay(log + o.suffix, r) == Replay(log + (o.others + [op]), r)
    decreases |attempts|
  {
    hide Replay, KeyOf, ChangeMembers;
    var a, rest := attempts[0], attempts[1..];
    assert forall i :: 0 <= i < |rest| ==> rest[i] == attempts[i + 1];
    if !(Commits(a) && a.raft) {
      var o' := LogPeer(op, ch, pid, rest, true, members);
      PeerCopies(op, ch, pid, rest, true, members);
      PeerCopiesHarmless(op, ch, pid, rest, true, members, log + a.before, r);
      PrependReplay(log, a.before, if Commits(a) then [op] else [], op, o', r);
    }
  }

  lemma PrependReplay(log: seq<LogOp>, before: seq<LogOp>, own: seq<LogOp>, op: LogOp, o': Outcome, r: Replica)
    requires own == [] || own == [op]
    requires KeyOf(op) != Nothing && op in o'.suffix
    requires Replay(log + before + o'.suffix, r) == Replay(log + before + (o'.others + [op]), r)
    ensures var o := Prepend(before, own, o'); Replay(log + o.suffix, r) == Replay(log + (o.others + [op]), r)
  {
    hide Replay, KeyOf;
    var o := Prepend(before, own, o');
    assert log + (o.others + [op]) == log + before + (o'.others + [op]);
    if own == [op] {
      DropEarlierCopy(log + before, op, o'.suffix, r);
      assert log + o.suffix == log + before + [op] + o'.suffix;
    } else {
      assert log + o.suffix == log + before + o'.suffix;
    }
  }

  /** An attempt of LogAddPeer or LogRmPeer after which there is no other. */
  predicate Ends(a: Attempt, pid: Option<PeerId>) {
    a.redirect == Redirected || (a.redirect == Leading && (pid.None? || (a.committed && a.raft)))
  }

  ghost predicate FirstToEnd(attempts: seq<Attempt>, pid: Option<PeerId>, k: nat) {
    k < |attempts| && Ends(attempts[k], pid) && forall j :: 0 <= j < k ==> !Ends(attempts[j], pid)
  }

  /** How often these attempts reached the log, as leader and with a good address. */
  function Committed(attempts: seq<Attempt>, pid: Option<PeerId>): nat {
    if attempts == [] then 0
    else
      (if attempts[0].redirect == Leading && pid.Some? && attempts[0].committed then 1 else 0)
      + Committed(attempts[1..], pid)
  }

  /** What these attempts leave in the log. */
  function Appended(op: LogOp, attempts: seq<Attempt>, pid: Option<PeerId>): seq<LogOp> {
    if attempts == [] then []
    else
      attempts[0].before
      + (if attempts[0].redirect == Leading && pid.Some? && attempts[0].committed then [op] else [])
      + Appended(op, attempts[1..], pid)
  }

  /** On any peer: the call ends at the first attempt that is redirected, finds the address bad, or
      commits and changes the Raft set; only the second of these is an error. One copy per commit. */
  lemma {:induction false} PeerEnds(op: LogOp, ch: Change, pid: Option<PeerId>, attempts: seq<Attempt>,
                                    err: bool, members: set<PeerId>, k: nat)
    requires FirstToEnd(attempts, pid, k)
    ensures var o, last := LogPeer(op, ch, pid, attempts, err, members), attempts[k].redirect == Leading;
      && o.err == (last && pid.None?)
      && o.others == Others(attempts[..k + 1]) && o.copies == Committed(attempts[..k + 1], pid)
      && o.suffix == Appended(op, attempts[..k + 1], pid)
      && o.members == (if !last || pid.None? then members
                       else if ch == AddMember then members + {pid.value} else members - {pid.value})
    decreases |attempts|
  {
    var a, rest := attempts[0], attempts[1..];
    if k > 0 {
      assert forall j :: 0 <= j < k - 1 ==> rest[j] == attempts[j + 1];
      PeerEnds(op, ch, pid, rest, true, members, k - 1);
      assert attempts[..k + 1][1..] == rest[..k];
    } else {
      assert attempts[..1][1..] == [] && Others([]) == [] && Committed([], pid) == 0 && Appended(op, [], pid) == [];
      assert Others(attempts[..1]) == a.before;
    }
  }

  /** Without such an attempt the call fails after the last one. */
  lemma {:induction false} PeerGivesUp(op: LogOp, ch: Change, pid: Option<PeerId>, attempts: seq<Attempt>,
                                       err: bool, members: set<PeerId>)
    requires (attempts == [] ==> err) && forall j :: 0 <= j < |attempts| ==> !Ends(attempts[j], pid)
    ensures var o := LogPeer(op, ch, pid, attempts, err, members);
      && o.err && o.members == members && o.others == Others(attempts) && o.copies == Committed(attempts, pid)
      && o.suffix == Appended(op, attempts, pid)
    decreases |attempts|
  {
    if attempts != [] {
      assert forall j :: 0 <= j < |attempts[1..]| ==> attempts[1..][j] == attempts[j + 1];
      PeerGivesUp(op, ch, pid, attempts[1..], true, members);
    }
  }

  /** LogAddPeer on the leader: the peer is in the Raft set, and however many copies were appended the
      log replays as with the last one alone. */
  lemma AddPeerHarmless(addr: Multiaddr, attempts: seq<Attempt>, members: set<PeerId>, log: seq<LogOp>, r: Replica)
    requires NeverRedirects(attempts) && attempts != []
    requires !LogPeer(AddPeerOp(addr), AddMember, addr.peer, attempts, false, members).err
    ensures var o := LogPeer(AddPeerOp(addr), AddMember, addr.peer, attempts, false, members);
      && 1 <= o.copies <= |attempts| && addr.peer.Some? && o.members == members + {addr.peer.value}
      && Replay(log + o.suffix, r) == Replay(log + (o.others + [AddPeerOp(addr)]), r)
  {
    hide LogPeer, Replay;
    PeerCopies(AddPeerOp(addr), AddMember, addr.peer, attempts, false, members);
    PeerCopiesHarmless(AddPeerOp(addr), AddMember, addr.peer, attempts, false, members, log, r);
  }

  lemma RmPeerHarmless(pid: PeerId, attempts: seq<Attempt>, members: set<PeerId>, log: seq<LogOp>, r: Replica)
    requires NeverRedirects(attempts) && attempts != []
    requires !LogPeer(RmPeerOp(IdAddr(pid)), RemoveMember, Some(pid), attempts, false, members).err
    ensures var o := LogPeer(RmPeerOp(IdAddr(pid)), RemoveMember, Some(pid), attempts, false, members);
      && 1 <= o.copies <= |attempts| && o.members == members - {pid}
      && Replay(log + o.suffix, r) == Replay(log + (o.others + [RmPeerOp(IdAddr(pid))]), r)
  {
    hide LogPeer, Replay;
    PeerCopies(RmPeerOp(IdAddr(pid)), RemoveMember, Some(pid), attempts, false, members);
    PeerCopiesHarmless(RmPeerOp(IdAddr(pid)), RemoveMember, Some(pid), attempts, false, members, log, r);
  }

  /** A failed call may leave copies behind, but only when a commit preceded a Raft failure. */
  lemma {:induction false} PeerFailure(op: LogOp, ch: Change, pid: Option<PeerId>, attempts: seq<Attempt>,
                                       err: bool, members: set<PeerId>)
    requires NeverRedirects(attempts) && LogPeer(op, ch, pid, attempts, err, members).err
    ensures var o := LogPeer(op, ch, pid, attempts, err, members);
      && o.members == members
      && (o.copies > 0 <==> pid.Some? && exists i :: 0 <= i < |attempts| && Commits(attempts[i]))
    decreases |attempts|
  {
    if attempts != [] {
      var a, rest := attempts[0], attempts[1..];
      assert forall i :: 0 <= i < |rest| ==> rest[i] == attempts[i + 1];
      if !(a.redirect.Leading? && pid.None?) {
        PeerFailure(op, ch, pid, rest, true, members);
        if Commits(a) {
          assert Commits(attempts[0]);
        }
        assert forall i :: 0 <= i < |rest| && Commits(rest[i]) ==> Commits(attempts[i + 1]);
        assert forall i :: 1 <= i < |attempts| && Commits(attempts[i]) ==> Commits(rest[i - 1]);
      }
    }
  }
}
