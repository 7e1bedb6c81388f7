/** Merging what all peers report into one record per CID (globalPinInfoSlice and globalPinInfoCid in
    cluster.go). */
module GlobalStatus {
  import opened Types

  datatype GlobalPinInfo = GlobalPinInfo(cid: Cid, peerMap: map<PeerId, PinInfo>)

  type FullMap = map<Cid, GlobalPinInfo>

  datatype Reply = Answered(pins: seq<PinInfo>) | Failed(error: string)

  function At(m: map<PeerId, PinInfo>, p: PeerId): Option<PinInfo> {
    if p in m then Some(m[p]) else None
  }

  function ClusterErrorInfo(c: Cid, p: PeerId, error: string, now: Time): PinInfo {
    PinInfo(c, p, ClusterError, now, error)
  }

  // ---- what the merge computes, for any replies --------------------------------------------------

  /** All entries of the replies that arrived, in order. */
  function Entries(replies: seq<Reply>): seq<PinInfo> {
    if replies == [] then []
    else
      var r := replies[|replies| - 1];
      Entries(replies[..|replies| - 1]) + if r.Answered? then r.pins else []
  }

  ghost predicate Mentions(entries: seq<PinInfo>, c: Cid) {
    exists i :: 0 <= i < |entries| && entries[i].cid == c
  }

  /** The last entry for that CID under that peer ID. */
  function LastOf(entries: seq<PinInfo>, c: Cid, p: PeerId): Option<PinInfo> {
    if entries == [] then None
    else
      var e := entries[|entries| - 1];
      if e.cid == c && e.peer == p then Some(e) else LastOf(entries[..|entries| - 1], c, p)
  }

  function Errors(members: seq<PeerId>, replies: seq<Reply>): map<PeerId, string>
    requires |members| == |replies|
  {
    if replies == [] then map[]
    else
      var n := |replies| - 1;
      var before := Errors(members[..n], replies[..n]);
      if replies[n].Failed? then before[members[n] := replies[n].error] else before
  }

  ghost predicate Merged(fullMap: FullMap, entries: seq<PinInfo>) {
    && (forall c :: c in fullMap <==> Mentions(entries, c))
    && (forall c :: c in fullMap ==> fullMap[c].cid == c)
    && (forall c, p :: c in fullMap ==> At(fullMap[c].peerMap, p) == LastOf(entries, c, p))
  }

  ghost predicate IsRecord(g: GlobalPinInfo, entries: seq<PinInfo>, errors: map<PeerId, string>, now: Time) {
    forall p :: At(g.peerMap, p)
             == if p in errors then Some(ClusterErrorInfo(g.cid, p, errors[p], now)) else LastOf(entries, g.cid, p)
  }

  ghost predicate Aggregated(
      infos: seq<GlobalPinInfo>, members: seq<PeerId>, replies: seq<Reply>, now: Time)
    requires |members| == |replies|
  {
    && (forall i, j :: 0 <= i < j < |infos| ==> infos[i].cid != infos[j].cid)
    && (forall g :: g in infos ==>
         Mentions(Entries(replies), g.cid) && IsRecord(g, Entries(replies), Errors(members, replies), now))
    && (forall c :: Mentions(Entries(replies), c) ==> exists g :: g in infos && g.cid == c)
  }

  lemma MergeEntry(fullMap: FullMap, entries: seq<PinInfo>, p: PinInfo)
    requires Merged(fullMap, entries)
    ensures var peers := if p.cid in fullMap then fullMap[p.cid].peerMap else map[];
      Merged(fullMap[p.cid := GlobalPinInfo(p.cid, peers[p.peer := p])], entries + [p])
  {
    forall c
      ensures Mentions(entries + [p], c) <==> Mentions(entries, c) || c == p.cid
    {
      assert c == p.cid ==> (entries + [p])[|entries|].cid == c;
      assert forall i :: 0 <= i < |entries| ==> (entries + [p])[i] == entries[i];
    }
    var peers := if p.cid in fullMap then fullMap[p.cid].peerMap else map[];
    var merged := fullMap[p.cid := GlobalPinInfo(p.cid, peers[p.peer := p])];
    assert (entries + [p])[..|entries|] == entries;
    forall c, q | c in merged
      ensures At(merged[c].peerMap, q) == LastOf(entries + [p], c, q)
    {
      if c !in fullMap {
        LastIsMentioned(entries, c, q);
      }
    }
  }

  lemma {:induction false} LastIsMentioned(entries: seq<PinInfo>, c: Cid, p: PeerId)
    ensures var r := LastOf(entries, c, p);
      r.Some? ==> r.value in entries && r.value.cid == c && r.value.peer == p
    ensures LastOf(entries, c, p).None? ==> forall e :: e in entries ==> e.cid != c || e.peer != p
    ensures LastOf(entries, c, p).Some? ==> Mentions(entries, c)
  {
    if entries != [] {
      var n := |entries| - 1;
      LastIsMentioned(entries[..n], c, p);
      assert entries == entries[..n] + [entries[n]];
    }
  }

  /** `e` is the last entry for its CID and peer. */
  ghost predicate LastEntry(entries: seq<PinInfo>, e: PinInfo) {
    exists i :: 0 <= i < |entries| && entries[i] == e && NoneLater(entries, e, i)
  }

  ghost predicate NoneLater(entries: seq<PinInfo>, e: PinInfo, i: nat) {
    forall j :: i < j < |entries| ==> entries[j].cid != e.cid || entries[j].peer != e.peer
  }

  lemma {:induction false} LastOfIsLast(entries: seq<PinInfo>, e: PinInfo)
    ensures LastEntry(entries, e) <==> LastOf(entries, e.cid, e.peer) == Some(e)
    decreases |entries|
  {
    if entries != [] {
      var n := |entries| - 1;
      var front, last := entries[..n], entries[n];
      LastOfIsLast(front, e);
      if last.cid == e.cid && last.peer == e.peer {
        assert last == e ==> NoneLater(entries, e, n);
      } else {
        if i :| 0 <= i < |entries| && entries[i] == e && NoneLater(entries, e, i) {
          assert front[i] == e && NoneLater(front, e, i);
        }
        if i :| 0 <= i < |front| && front[i] == e && NoneLater(front, e, i) {
          assert forall j :: i < j < n ==> entries[j] == front[j];
          assert entries[i] == e && NoneLater(entries, e, i);
        }
      }
    }
  }

  method MergePins(fullMap: FullMap, pins: seq<PinInfo>, ghost entries: seq<PinInfo>) returns (merged: FullMap)
    requires Merged(fullMap, entries)
    ensures Merged(merged, entries + pins)
  {
    hide Merged;
    merged := fullMap;
    assert entries + pins[..0] == entries;
    for i := 0 to |pins|
      invariant Merged(merged, entries + pins[..i])
    {
      var p := pins[i];
      MergeEntry(merged, entries + pins[..i], p);
      assert entries + pins[..i] + [p] == entries + pins[..i + 1];
      if p.cid !in merged {
        merged := merged[p.cid := GlobalPinInfo(p.cid, map[p.peer := p])];
      } else {
        var item := merged[p.cid];
        assert item.cid == p.cid by { MergedKeys(merged, entries + pins[..i], p.cid); }
        merged := merged[p.cid := item.(peerMap := item.peerMap[p.peer := p])];
      }
    }
    assert pins[..|pins|] == pins;
  }

  lemma MergedKeys(fullMap: FullMap, entries: seq<PinInfo>, c: Cid)
    requires Merged(fullMap, entries) && c in fullMap
    ensures fullMap[c].cid == c
  {
  }

  /** What the records hold for CID `c` and peer `q` instead of `reported`. */
  function ErrorOr(
      done: map<PeerId, string>, p: PeerId, error: string, cids: set<Cid>, c: Cid, q: PeerId,
      reported: Option<PinInfo>, now: Time): Option<PinInfo>
  {
    if q in done then Some(ClusterErrorInfo(c, q, done[q], now))
    else if q == p && c in cids then Some(ClusterErrorInfo(c, p, error, now))
    else reported
  }

  /** `cids` have had the error entries of `done` and of `p` written, the others only those of `done`. */
  ghost predicate Marked(
      marked: FullMap, fullMap: FullMap, done: map<PeerId, string>, p: PeerId, error: string, cids: set<Cid>, now: Time)
  {
    && marked.Keys == fullMap.Keys
    && (forall c :: c in marked ==> marked[c].cid == fullMap[c].cid)
    && (forall c, q :: c in marked ==>
         At(marked[c].peerMap, q) == ErrorOr(done, p, error, cids, c, q, At(fullMap[c].peerMap, q), now))
  }

  /** Writes an error entry for `p` into every record. */
  method MergeError(
      fullMap: FullMap, p: PeerId, error: string, now: Time, ghost reported: FullMap, ghost done: map<PeerId, string>)
    returns (marked: FullMap)
    requires Marked(fullMap, reported, done, "", "", {}, now) && p !in done
    ensures Marked(marked, reported, done[p := error], "", "", {}, now)
  {
    hide Marked;
    marked := fullMap;
    var cids := marked.Keys;
    MarkedPeer(marked, reported, done, p, error, now);
    while cids != {}
      invariant cids <= marked.Keys == reported.Keys
      invariant Marked(marked, reported, done, p, error, reported.Keys - cids, now)
      decreases |cids|
    {
      var c :| c in cids;
      MarkedCid(marked, reported, done, p, error, reported.Keys - cids, c, now);
      assert reported.Keys - cids + {c} == reported.Keys - (cids - {c});
      var info := ClusterErrorInfo(c, p, error, now);
      marked := marked[c := marked[c].(peerMap := marked[c].peerMap[p := info])];
      cids := cids - {c};
    }
    MarkedAll(marked, reported, done, p, error, reported.Keys - cids, now);
  }

  /** Writes an error entry for every errored peer into every record. */
  method MergeErrors(fullMap: FullMap, erroredPeers: map<PeerId, string>, now: Time) returns (marked: FullMap)
    ensures Marked(marked, fullMap, erroredPeers, "", "", {}, now)
  {
    hide Marked;
    marked := fullMap;
    var left := erroredPeers.Keys;
    ghost var done: map<PeerId, string> := map[];
    MarkedStart(fullMap, now);
    while left != {}
      invariant left <= erroredPeers.Keys && done == erroredPeers - left
      invariant Marked(marked, fullMap, done, "", "", {}, now)
      decreases |left|
    {
      var p :| p in left;
      marked := MergeError(marked, p, erroredPeers[p], now, fullMap, done);
      left := left - {p};
      done := done[p := erroredPeers[p]];
    }
    assert done == erroredPeers;
  }

  lemma MarkedStart(fullMap: FullMap, now: Time)
    ensures Marked(fullMap, fullMap, map[], "", "", {}, now)
  {
  }

  lemma MarkedPeer(
      marked: FullMap, fullMap: FullMap, done: map<PeerId, string>, p: PeerId, error: string, now: Time)
    requires Marked(marked, fullMap, done, "", "", {}, now)
    ensures Marked(marked, fullMap, done, p, error, {}, now) && marked.Keys == fullMap.Keys
    ensures Marked(marked, fullMap, done, p, error, fullMap.Keys - marked.Keys, now)
  {
    assert fullMap.Keys - marked.Keys == {};
  }

  lemma MarkedCid(
      marked: FullMap, fullMap: FullMap, done: map<PeerId, string>, p: PeerId, error: string, cids: set<Cid>,
      c: Cid, now: Time)
    requires Marked(marked, fullMap, done, p, error, cids, now) && c in marked && p !in done
    ensures var info := ClusterErrorInfo(c, p, error, now);
      Marked(marked[c := marked[c].(peerMap := marked[c].peerMap[p := info])], fullMap, done, p, error, cids + {c}, now)
  {
  }

  lemma MarkedAll(
      marked: FullMap, fullMap: FullMap, done: map<PeerId, string>, p: PeerId, error: string, cids: set<Cid>, now: Time)
    requires Marked(marked, fullMap, done, p, error, cids, now) && cids == fullMap.Keys && p !in done
    ensures Marked(marked, fullMap, done[p := error], "", "", {}, now)
  {
  }

  /** `replies[i]` is what `members[i]` sent back. */
  method GlobalPinInfoSlice(members: seq<PeerId>, replies: seq<Reply>, now: Time) returns (infos: seq<GlobalPinInfo>)
    requires |members| == |replies|
    ensures Aggregated(infos, members, replies, now)
    ensures forall g, i :: g in infos && 0 <= i < |members| && replies[i].Failed? && LastAt(members, i, |members|) ==>
      members[i] in g.peerMap && IsClusterError(g.peerMap[members[i]], g.cid, members[i], replies[i].error)
    ensures forall g, p :: g in infos && p in g.peerMap && !HasFailed(members, replies, p) ==>
      && IsReported(g.peerMap[p], replies) && LastEntry(Entries(replies), g.peerMap[p])
      && g.peerMap[p].cid == g.cid && g.peerMap[p].peer == p
  {
    hide Merged, Marked, Aggregated, HasFailed, IsReported, LastAt, IsClusterError, LastEntry;
    var fullMap: FullMap := map[];
    var erroredPeers: map<PeerId, string> := map[];
    assert Merged(fullMap, Entries(replies[..0])) by { MergedNone(); }
    for i := 0 to |replies|
      invariant Merged(fullMap, Entries(replies[..i]))
      invariant erroredPeers == Errors(members[..i], replies[..i])
    {
      assert replies[..i + 1][..i] == replies[..i] && members[..i + 1][..i] == members[..i];
      match replies[i]
      case Failed(e) => {
        erroredPeers := erroredPeers[members[i] := e];
        assert Entries(replies[..i]) + [] == Entries(replies[..i]);
      }
      case Answered(pins) => {
        fullMap := MergePins(fullMap, pins, Entries(replies[..i]));
      }
    }
    assert replies[..|replies|] == replies && members[..|members|] == members;
    ghost var merged := fullMap;
    fullMap := MergeErrors(fullMap, erroredPeers, now);
    infos := Values(fullMap);
    AggregatedValues(infos, merged, fullMap, members, replies, now);
    forall g, i | g in infos && 0 <= i < |members| && replies[i].Failed? && LastAt(members, i, |members|) {
      ErrorIsShown(infos, members, replies, now, g, i);
    }
    forall g, p | g in infos && p in g.peerMap && !HasFailed(members, replies, p) {
      ReportIsShown(infos, members, replies, now, g, p);
    }
  }

  /** The entry for a peer that could not be reached. */
  predicate IsClusterError(e: PinInfo, c: Cid, p: PeerId, error: string) {
    e.status == TrackerStatus.ClusterError && e.cid == c && e.peer == p && e.error == error
  }

  ghost predicate HasFailed(members: seq<PeerId>, replies: seq<Reply>, p: PeerId)
    requires |members| == |replies|
  {
    exists i :: 0 <= i < |members| && members[i] == p && replies[i].Failed?
  }

  ghost predicate IsReported(e: PinInfo, replies: seq<Reply>) {
    exists i :: 0 <= i < |replies| && replies[i].Answered? && e in replies[i].pins
  }

  lemma {:induction false} ErrorOfLast(members: seq<PeerId>, replies: seq<Reply>, i: nat)
    requires |members| == |replies| && i < |members| && replies[i].Failed? && LastAt(members, i, |members|)
    ensures members[i] in Errors(members, replies) && Errors(members, replies)[members[i]] == replies[i].error
  {
    var n := |replies| - 1;
    if i < n {
      assert LastAt(members[..n], i, n);
      assert members[n] != members[i];
      ErrorOfLast(members[..n], replies[..n], i);
    }
  }

  lemma {:induction false} ErrorsFailed(members: seq<PeerId>, replies: seq<Reply>, p: PeerId)
    requires |members| == |replies| && p in Errors(members, replies)
    ensures HasFailed(members, replies, p)
  {
    var n := |replies| - 1;
    if p in Errors(members[..n], replies[..n]) {
      ErrorsFailed(members[..n], replies[..n], p);
      var i :| 0 <= i < n && members[..n][i] == p && replies[..n][i].Failed?;
      assert members[i] == p && replies[i].Failed?;
    } else {
      assert members[n] == p && replies[n].Failed?;
    }
  }

  lemma ErrorIsShown(infos: seq<GlobalPinInfo>, members: seq<PeerId>, replies: seq<Reply>, now: Time,
                     g: GlobalPinInfo, i: nat)
    requires |members| == |replies| && Aggregated(infos, members, replies, now) && g in infos
    requires i < |members| && replies[i].Failed? && LastAt(members, i, |members|)
    ensures members[i] in g.peerMap && IsClusterError(g.peerMap[members[i]], g.cid, members[i], replies[i].error)
  {
    hide Errors, Entries, LastOf;
    ErrorOfLast(members, replies, i);
    assert IsRecord(g, Entries(replies), Errors(members, replies), now);
    assert At(g.peerMap, members[i]).Some?;
  }

  lemma ReportIsShown(infos: seq<GlobalPinInfo>, members: seq<PeerId>, replies: seq<Reply>, now: Time,
                      g: GlobalPinInfo, p: PeerId)
    requires |members| == |replies| && Aggregated(infos, members, replies, now) && g in infos && p in g.peerMap
    requires !HasFailed(members, replies, p)
    ensures IsReported(g.peerMap[p], replies) && g.peerMap[p].cid == g.cid && g.peerMap[p].peer == p
    ensures LastEntry(Entries(replies), g.peerMap[p])
  {
    hide Errors, Entries, LastOf;
    if p in Errors(members, replies) {
      ErrorsFailed(members, replies, p);
    }
    assert IsRecord(g, Entries(replies), Errors(members, replies), now);
    assert At(g.peerMap, p).Some?;
    LastIsMentioned(Entries(replies), g.cid, p);
    EntriesAre(members, replies, g.peerMap[p]);
    LastOfIsLast(Entries(replies), g.peerMap[p]);
  }

  lemma MergedNone()
    ensures Merged(map[], [])
  {
  }

  /** One iteration over a map. */
  method Values(fullMap: FullMap) returns (infos: seq<GlobalPinInfo>)
    ensures ValuesOf(infos, fullMap, {})
  {
    infos := [];
    var left := fullMap.Keys;
    while left != {}
      invariant left <= fullMap.Keys && ValuesOf(infos, fullMap, left)
      decreases |left|
    {
      var c :| c in left;
      ValuesMore(infos, fullMap, left, c);
      infos := infos + [fullMap[c]];
      left := left - {c};
    }
  }

  /** `infos` are the values of all keys but `left`, once each. */
  ghost predicate ValuesOf(infos: seq<GlobalPinInfo>, fullMap: FullMap, left: set<Cid>) {
    exists order: seq<Cid> ::
      Enumerates(order, fullMap.Keys - left) && |order| == |infos|
      && forall i :: 0 <= i < |order| ==> order[i] in fullMap && infos[i] == fullMap[order[i]]
  }

  lemma ValuesMore(infos: seq<GlobalPinInfo>, fullMap: FullMap, left: set<Cid>, c: Cid)
    requires c in left && left <= fullMap.Keys && ValuesOf(infos, fullMap, left)
    ensures ValuesOf(infos + [fullMap[c]], fullMap, left - {c})
  {
    var order: seq<Cid> :|
      Enumerates(order, fullMap.Keys - left) && |order| == |infos|
      && forall i :: 0 <= i < |order| ==> order[i] in fullMap && infos[i] == fullMap[order[i]];
    EnumeratesMore(order, fullMap.Keys - left, c);
    assert fullMap.Keys - left + {c} == fullMap.Keys - (left - {c});
    var more := order + [c];
    assert Enumerates(more, fullMap.Keys - (left - {c}));
  }

  lemma AggregatedValues(
      infos: seq<GlobalPinInfo>, merged: FullMap, fullMap: FullMap, members: seq<PeerId>, replies: seq<Reply>, now: Time)
    requires |members| == |replies|
    requires Merged(merged, Entries(replies))
    requires Marked(fullMap, merged, Errors(members, replies), "", "", {}, now)
    requires ValuesOf(infos, fullMap, {})
    ensures Aggregated(infos, members, replies, now)
  {
    hide Entries, Errors, LastOf, Mentions;
    var order: seq<Cid> :|
      Enumerates(order, fullMap.Keys - {}) && |order| == |infos|
      && forall i :: 0 <= i < |order| ==> order[i] in fullMap && infos[i] == fullMap[order[i]];
    forall g | g in infos
      ensures Mentions(Entries(replies), g.cid) && IsRecord(g, Entries(replies), Errors(members, replies), now)
    {
      var i :| 0 <= i < |infos| && infos[i] == g;
      assert g == fullMap[order[i]] && g.cid == order[i];
    }
    forall c | Mentions(Entries(replies), c)
      ensures exists g :: g in infos && g.cid == c
    {
      assert c in order;
      var i :| 0 <= i < |order| && order[i] == c;
      assert infos[i].cid == c;
    }
  }

  // ---- the exact transpose ----------------------------------------------------------------------

  /** Every peer answered or failed, in whatever order the replies are visited. */
  ghost predicate Answers(members: seq<PeerId>, replies: seq<Reply>, answers: map<PeerId, Reply>) {
    && |members| == |replies| && Distinct(members) && answers.Keys == ToSet(members)
    && (forall i :: 0 <= i < |members| ==> members[i] in answers && answers[members[i]] == replies[i])
  }

  /** Each peer reports distinct CIDs, under its own ID. */
  ghost predicate Proper(answers: map<PeerId, Reply>) {
    forall p :: p in answers && answers[p].Answered? ==> ProperPins(answers[p].pins, p)
  }

  ghost predicate ProperPins(pins: seq<PinInfo>, p: PeerId) {
    && (forall i :: 0 <= i < |pins| ==> pins[i].peer == p)
    && (forall i, j :: 0 <= i < j < |pins| ==> pins[i].cid != pins[j].cid)
  }

  /** The entry of peer `p` for `c`, which does not depend on any order. */
  ghost function EntryOf(answers: map<PeerId, Reply>, c: Cid, p: PeerId, now: Time): Option<PinInfo> {
    if p !in answers then None
    else match answers[p]
      case Failed(error) => Some(ClusterErrorInfo(c, p, error, now))
      case Answered(pins) =>
        if e :| e in pins && e.cid == c then Some(e) else None
  }

  ghost predicate Reported(answers: map<PeerId, Reply>, c: Cid) {
    exists p :: p in answers && answers[p].Answered? && Mentions(answers[p].pins, c)
  }

  /** One record for each reported CID, holding every peer's entry and nothing else. */
  ghost predicate Transposed(infos: seq<GlobalPinInfo>, answers: map<PeerId, Reply>, now: Time) {
    && (forall i, j :: 0 <= i < j < |infos| ==> infos[i].cid != infos[j].cid)
    && (forall c :: Reported(answers, c) <==> exists g :: g in infos && g.cid == c)
    && (forall g, p :: g in infos ==> At(g.peerMap, p) == EntryOf(answers, g.cid, p, now))
  }

  lemma {:induction false} EntriesAre(members: seq<PeerId>, replies: seq<Reply>, e: PinInfo)
    requires |members| == |replies|
    ensures e in Entries(replies) <==> exists i :: 0 <= i < |replies| && replies[i].Answered? && e in replies[i].pins
  {
    if replies != [] {
      var n := |replies| - 1;
      EntriesAre(members[..n], replies[..n], e);
      assert forall i :: 0 <= i < n ==> replies[..n][i] == replies[i];
    }
  }

  lemma {:induction false} ErrorsAre(members: seq<PeerId>, replies: seq<Reply>, i: nat)
    requires |members| == |replies| && Distinct(members) && i < |members|
    ensures var errors := Errors(members, replies);
      if replies[i].Failed? then members[i] in errors && errors[members[i]] == replies[i].error
      else members[i] !in errors
  {
    var n := |replies| - 1;
    if i < n {
      ErrorsAre(members[..n], replies[..n], i);
    } else {
      ErrorsKeys(members[..n], replies[..n]);
    }
  }

  lemma {:induction false} ErrorsKeys(members: seq<PeerId>, replies: seq<Reply>)
    requires |members| == |replies|
    ensures Errors(members, replies).Keys <= ToSet(members)
  {
    if replies != [] {
      var n := |replies| - 1;
      ErrorsKeys(members[..n], replies[..n]);
    }
  }

  /** The last entry of a peer that answered is its only one. */
  lemma EntryIsLast(members: seq<PeerId>, replies: seq<Reply>, answers: map<PeerId, Reply>, c: Cid, p: PeerId, now: Time)
    requires Answers(members, replies, answers) && Proper(answers)
    ensures var errors := Errors(members, replies);
      EntryOf(answers, c, p, now)
      == if p in errors then Some(ClusterErrorInfo(c, p, errors[p], now)) else LastOf(Entries(replies), c, p)
  {
    hide Entries, Errors;
    LastIsMentioned(Entries(replies), c, p);
    ErrorsKeys(members, replies);
    if p in answers {
      var i :| 0 <= i < |members| && members[i] == p;
      ErrorsAre(members, replies, i);
      if replies[i].Answered? {
        assert ProperPins(replies[i].pins, p);
        forall e ensures e in Entries(replies) && e.peer == p <==> e in replies[i].pins {
          EntryOfPeer(members, replies, answers, i, e);
        }
      }
    } else {
      forall e | e in Entries(replies)
        ensures e.peer != p
      {
        EntriesAre(members, replies, e);
        var i :| 0 <= i < |replies| && replies[i].Answered? && e in replies[i].pins;
        assert members[i] in answers && ProperPins(answers[members[i]].pins, members[i]);
      }
    }
  }

  lemma EntryOfPeer(members: seq<PeerId>, replies: seq<Reply>, answers: map<PeerId, Reply>, i: nat, e: PinInfo)
    requires Answers(members, replies, answers) && Proper(answers)
    requires i < |members| && replies[i].Answered?
    ensures e in Entries(replies) && e.peer == members[i] <==> e in replies[i].pins
  {
    EntriesAre(members, replies, e);
    assert ProperPins(answers[members[i]].pins, members[i]);
    if e in Entries(replies) && e.peer == members[i] {
      var j :| 0 <= j < |replies| && replies[j].Answered? && e in replies[j].pins;
      assert ProperPins(answers[members[j]].pins, members[j]);
      assert members[j] == members[i];
    }
  }

  lemma MentionedIsReported(members: seq<PeerId>, replies: seq<Reply>, answers: map<PeerId, Reply>, c: Cid)
    requires Answers(members, replies, answers)
    ensures Mentions(Entries(replies), c) <==> Reported(answers, c)
  {
    hide Entries;
    if Mentions(Entries(replies), c) {
      var e :| e in Entries(replies) && e.cid == c;
      EntriesAre(members, replies, e);
      var i :| 0 <= i < |replies| && replies[i].Answered? && e in replies[i].pins;
      assert members[i] in answers && Mentions(answers[members[i]].pins, c);
    }
    if Reported(answers, c) {
      var p :| p in answers && answers[p].Answered? && Mentions(answers[p].pins, c);
      var i :| 0 <= i < |members| && members[i] == p;
      var e :| e in replies[i].pins && e.cid == c;
      EntriesAre(members, replies, e);
    }
  }

  /** What a record holds for a peer, given what the peer answered. */
  ghost predicate HoldsAnswer(g: GlobalPinInfo, answers: map<PeerId, Reply>, p: PeerId) {
    if p !in answers then p !in g.peerMap
    else match answers[p]
      case Failed(error) => p in g.peerMap && IsClusterError(g.peerMap[p], g.cid, p, error)
      case Answered(pins) =>
        && (p in g.peerMap <==> Mentions(pins, g.cid))
        && (p in g.peerMap ==> g.peerMap[p] in pins && g.peerMap[p].cid == g.cid)
  }

  lemma TransposedMeans(infos: seq<GlobalPinInfo>, answers: map<PeerId, Reply>, now: Time)
    ensures Transposed(infos, answers, now) ==> forall g, p :: g in infos ==> HoldsAnswer(g, answers, p)
  {
    if Transposed(infos, answers, now) {
      forall g, p | g in infos
        ensures HoldsAnswer(g, answers, p)
      {
        EntryMeans(g, answers, p, now);
      }
    }
  }

  lemma EntryMeans(g: GlobalPinInfo, answers: map<PeerId, Reply>, p: PeerId, now: Time)
    requires At(g.peerMap, p) == EntryOf(answers, g.cid, p, now)
    ensures HoldsAnswer(g, answers, p)
  {
    if p in answers && answers[p].Answered? && Mentions(answers[p].pins, g.cid) {
      var pins := answers[p].pins;
      var i :| 0 <= i < |pins| && pins[i].cid == g.cid;
      assert pins[i] in pins;
    }
  }

  /** What globalPinInfoSlice returns is the transpose of the answers. */
  lemma AggregatedIsTransposed(
      infos: seq<GlobalPinInfo>, members: seq<PeerId>, replies: seq<Reply>, answers: map<PeerId, Reply>, now: Time)
    requires Answers(members, replies, answers) && Proper(answers)
    requires Aggregated(infos, members, replies, now)
    ensures Transposed(infos, answers, now)
    ensures forall g, p :: g in infos ==> HoldsAnswer(g, answers, p)
  {
    TransposedMeans(infos, answers, now);
    hide HoldsAnswer;
    hide Entries, Errors, LastOf, EntryOf, At, Mentions, Reported, Answers, Proper;
    assert |members| == |replies| by { AnswersLength(members, replies, answers); }
    forall c
      ensures Reported(answers, c) <==> exists g :: g in infos && g.cid == c
    {
      MentionedIsReported(members, replies, answers, c);
    }
    forall g, p | g in infos
      ensures At(g.peerMap, p) == EntryOf(answers, g.cid, p, now)
    {
      EntryIsLast(members, replies, answers, g.cid, p, now);
    }
  }

  lemma AnswersLength(members: seq<PeerId>, replies: seq<Reply>, answers: map<PeerId, Reply>)
    requires Answers(members, replies, answers)
    ensures |members| == |replies|
  {
  }

  /** The transpose determines the records, so no iteration order can be seen in them. */
  lemma TransposedUnique(infos: seq<GlobalPinInfo>, others: seq<GlobalPinInfo>, answers: map<PeerId, Reply>, now: Time)
    requires Transposed(infos, answers, now) && Transposed(others, answers, now)
    ensures ToSet(infos) == ToSet(others) && |infos| == |others|
  {
    forall g | g in infos ensures g in others { InOther(infos, others, answers, g, now); }
    forall g | g in others ensures g in infos { InOther(others, infos, answers, g, now); }
    DistinctSize(infos);
    DistinctSize(others);
  }

  lemma InOther(
      infos: seq<GlobalPinInfo>, others: seq<GlobalPinInfo>, answers: map<PeerId, Reply>, g: GlobalPinInfo, now: Time)
    requires Transposed(infos, answers, now) && Transposed(others, answers, now) && g in infos
    ensures g in others
  {
    hide EntryOf, Reported;
    assert Reported(answers, g.cid);
    var h :| h in others && h.cid == g.cid;
    forall p
      ensures p in g.peerMap <==> p in h.peerMap
      ensures p in g.peerMap ==> g.peerMap[p] == h.peerMap[p]
    {
      assert At(g.peerMap, p) == At(h.peerMap, p);
    }
    assert g.peerMap == h.peerMap;
  }

  // ---- one CID ----------------------------------------------------------------------------------

  /** `info` has status Bug, the zero value, when the peer could not be contacted. */
  datatype CidReply = CidReply(info: PinInfo, error: Option<string>)

  function CidEntry(p: PeerId, r: CidReply, now: Time): PinInfo {
    match r.error
    case None => r.info
    case Some(e) => if r.info.status == Bug then ClusterErrorInfo(r.info.cid, p, e, now) else r.info.(error := e)
  }

  /** Every member has an entry, the one its reply calls for. */
  ghost predicate CidRecord(pin: GlobalPinInfo, h: Cid, members: seq<PeerId>, replies: seq<CidReply>, now: Time) {
    |members| == |replies| && CidRecordUpTo(pin, h, members, replies, now, |members|)
  }

  ghost predicate CidRecordUpTo(
      pin: GlobalPinInfo, h: Cid, members: seq<PeerId>, replies: seq<CidReply>, now: Time, n: nat)
    requires n <= |members| == |replies|
  {
    && pin.cid == h
    && (forall p :: p in pin.peerMap <==> p in members[..n])
    && (forall i :: 0 <= i < n && LastAt(members, i, n) ==>
         pin.peerMap[members[i]] == CidEntry(members[i], replies[i], now))
  }

  /** `i` is the last place before `n` that holds this member. */
  ghost predicate LastAt(members: seq<PeerId>, i: nat, n: nat)
    requires i < n <= |members|
  {
    forall j :: i < j < n ==> members[j] != members[i]
  }

  method GlobalPinInfoCid(h: Cid, members: seq<PeerId>, replies: seq<CidReply>, now: Time) returns (pin: GlobalPinInfo)
    requires |members| == |replies|
    ensures CidRecord(pin, h, members, replies, now)
    ensures forall i :: 0 <= i < |members| && LastAt(members, i, |members|) ==>
      members[i] in pin.peerMap && ShowsReply(pin.peerMap[members[i]], members[i], replies[i])
  {
    hide CidRecordUpTo, ShowsReply, LastAt;
    pin := GlobalPinInfo(h, map[]);
    assert CidRecordUpTo(pin, h, members, replies, now, 0) by { CidRecordNone(h, members, replies, now); }
    for i := 0 to |replies|
      invariant CidRecordUpTo(pin, h, members, replies, now, i)
    {
      var r := replies[i].info;
      if replies[i].error.Some? {
        var e := replies[i].error.value;
        if r.status == Bug {
          r := PinInfo(r.cid, members[i], ClusterError, now, e);
        } else {
          r := r.(error := e);
        }
      }
      CidRecordMore(pin, h, members, replies, now, i);
      pin := pin.(peerMap := pin.peerMap[members[i] := r]);
    }
    RepliesAreShown(pin, h, members, replies, now);
  }

  /** A member that could not be contacted shows as ClusterError; a reply with any other status is kept,
      with the text of the error, if there is one. */
  predicate ShowsReply(e: PinInfo, p: PeerId, r: CidReply) {
    match r.error
    case None => e == r.info
    case Some(error) =>
      if r.info.status == Bug then IsClusterError(e, r.info.cid, p, error)
      else e.cid == r.info.cid && e.peer == r.info.peer && e.status == r.info.status && e.ts == r.info.ts && e.error == error
  }

  lemma RepliesAreShown(pin: GlobalPinInfo, h: Cid, members: seq<PeerId>, replies: seq<CidReply>, now: Time)
    requires |members| == |replies| && CidRecordUpTo(pin, h, members, replies, now, |members|)
    ensures forall i :: 0 <= i < |members| && LastAt(members, i, |members|) ==>
      members[i] in pin.peerMap && ShowsReply(pin.peerMap[members[i]], members[i], replies[i])
  {
    assert members[..|members|] == members;
  }

  /** A member that could not be contacted is counted under ClusterError only. */
  lemma UncontactableIsClusterError(pin: GlobalPinInfo, h: Cid, members: seq<PeerId>, replies: seq<CidReply>,
                                    now: Time, i: nat, st: TrackerStatus)
    requires CidRecord(pin, h, members, replies, now) && i < |members| && LastAt(members, i, |members|)
    requires replies[i].error.Some? && replies[i].info.status == Bug
    ensures members[i] in PeersWith(pin, st) <==> st == TrackerStatus.ClusterError
  {
    hide LastAt, CidRecordUpTo;
    RepliesAreShown(pin, h, members, replies, now);
  }

  lemma CidRecordNone(h: Cid, members: seq<PeerId>, replies: seq<CidReply>, now: Time)
    requires |members| == |replies|
    ensures CidRecordUpTo(GlobalPinInfo(h, map[]), h, members, replies, now, 0)
  {
  }

  lemma CidRecordMore(pin: GlobalPinInfo, h: Cid, members: seq<PeerId>, replies: seq<CidReply>, now: Time, i: nat)
    requires i < |members| == |replies| && CidRecordUpTo(pin, h, members, replies, now, i)
    ensures var r := CidEntry(members[i], replies[i], now);
      CidRecordUpTo(pin.(peerMap := pin.peerMap[members[i] := r]), h, members, replies, now, i + 1)
  {
    hide CidEntry, LastAt;
    assert members[..i + 1] == members[..i] + [members[i]];
    forall k | 0 <= k < i && LastAt(members, k, i + 1)
      ensures LastAt(members, k, i) && members[k] != members[i]
    {
      LastBefore(members, k, i);
    }
  }

  lemma LastBefore(members: seq<PeerId>, k: nat, i: nat)
    requires k < i < |members| && LastAt(members, k, i + 1)
    ensures LastAt(members, k, i) && members[k] != members[i]
  {
  }

  ghost function PeersWith(pin: GlobalPinInfo, st: TrackerStatus): set<PeerId> {
    set p | p in pin.peerMap && pin.peerMap[p].status == st
  }
}
