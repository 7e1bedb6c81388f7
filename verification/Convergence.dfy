/** Cluster.StateSync against the concurrent tracker (cluster.go). */
module Convergence {
  import opened Types
  import opened TrackerMap
  import opened TrackerMachine
  import opened PendingWork
  import opened Settling
  import opened Reachability

  /** `order` is what State.List() returns for `pins`: every entry once, in any order. */
  ghost predicate Lists(order: seq<CidArg>, pins: map<Cid, CidArg>) {
    && DistinctCids(order)
    && (forall a :: a in order ==> a.cid in pins && pins[a.cid] == a)
    && (forall c :: c in pins ==> pins[c] in order && pins[c].cid == c)
  }

  /** The part StateSync plays for `c`, told by the shared state and by what was tracked before. */
  function GoalFor(s: State, pins: map<Cid, CidArg>, c: Cid): Goal {
    if c !in pins then Untrack(c, c in s.status || !Holds(s.daemon, c))
    else if c in s.status then Goal.Keep(c, s.status[c], Holds(s.daemon, c))
    else Track(pins[c], false)
  }

  lemma StartStateSync(s: State, pins: map<Cid, CidArg>, order: seq<CidArg>, c: Cid)
    requires Quiescent(s) && Inv(s) && Lists(order, pins)
    ensures var t := StateSyncTrack(order, pins.Keys);
      CidOf(GoalFor(s, pins, c)) == c && At(Add(s, t), GoalFor(s, pins, c), Running(t))
  {
    var t := StateSyncTrack(order, pins.Keys);
    assert Add(s, t).threads - multiset{t} == multiset{};
    assert EntryOk(s, c);
    if c in pins {
      assert pins[c] in order;
    }
  }

  /** One StateSync from a quiescent tracker, for any capacity, failures and interleaving. Once
      nothing is left to do: entries of the state keep their status or are Remote, Pinned or in
      PinError; all other CIDs are gone or in UnpinError; error states only come from trouble. */
  lemma StateSyncConverges(s: State, pins: map<Cid, CidArg>, order: seq<CidArg>, acts: seq<Action>, c: Cid)
    requires Quiescent(s) && Inv(s) && Lists(order, pins)
    requires var s0 := Add(s, StateSyncTrack(order, pins.Keys));
      IsRun(s0, acts) && NoCalls(acts) && Quiescent(Exec(s0, acts))
    ensures var s' := Exec(Add(s, StateSyncTrack(order, pins.Keys)), acts);
      && SettledAt(s', GoalFor(s, pins, c))
      && (c in pins ==> c in s'.status)
      && (c !in pins && c in s'.status ==> s'.status[c].status == UnpinError && s'.trouble)
  {
    StartStateSync(s, pins, order, c);
    var t := StateSyncTrack(order, pins.Keys);
    Settles(Add(s, t), GoalFor(s, pins, c), Running(t), acts);
  }

  /** Without failures and overflow the tracked CIDs become exactly those of the state. */
  lemma StateSyncExact(s: State, pins: map<Cid, CidArg>, order: seq<CidArg>, acts: seq<Action>)
    requires Quiescent(s) && Inv(s) && Lists(order, pins)
    requires var s0 := Add(s, StateSyncTrack(order, pins.Keys));
      IsRun(s0, acts) && NoCalls(acts) && Quiescent(Exec(s0, acts)) && !Exec(s0, acts).trouble
    ensures var s' := Exec(Add(s, StateSyncTrack(order, pins.Keys)), acts);
      && s'.status.Keys == pins.Keys
      && (forall c :: c !in pins && (c in s.status || !Holds(s.daemon, c)) ==> !Holds(s'.daemon, c))
      && (forall c :: c in pins && c !in s.status && !IsRemote(s'.self, pins[c]) ==> Holds(s'.daemon, c))
  {
    var s' := Exec(Add(s, StateSyncTrack(order, pins.Keys)), acts);
    forall c
      ensures SettledAt(s', GoalFor(s, pins, c))
      ensures c in pins <==> c in s'.status
    {
      StateSyncConverges(s, pins, order, acts, c);
    }
  }
}
