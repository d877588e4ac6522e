/** The state behind the store's one lock, as a value: the record map, the
    insertion-order queue, the response-id index, the running byte total and the
    mutation cursor, with the internal operations on them. */
module FlowStates {
  import opened Base
  import opened ScalarCap
  import opened FlowRecords

  const FLOW_CAP: nat := 512
  const FLOW_TTL_MS: nat := 30 * 60 * 1000

  datatype FlowState = FlowState(
    byId: map<Text, FlowRecord>,
    order: seq<Text>,
    linkIndex: map<Text, Text>,
    liveBytes: nat,
    cursor: nat)

  const EMPTY := FlowState(map[], [], map[], 0, 0)

  function Weight(m: map<Text, FlowRecord>, id: Text): nat {
    if id in m then SummaryBytes(m[id]) else 0
  }

  function Total(m: map<Text, FlowRecord>, ids: seq<Text>): nat {
    if ids == [] then 0 else Weight(m, ids[0]) + Total(m, ids[1..])
  }

  ghost predicate QueueMatches(s: FlowState) {
    NoDup(s.order) && forall id :: id in s.order <==> id in s.byId
  }

  ghost predicate KeysMatch(s: FlowState) {
    forall id :: id in s.byId ==> s.byId[id].apiCallId == id
  }

  ghost predicate LinksLive(s: FlowState) {
    forall r :: r in s.linkIndex ==> s.linkIndex[r] in s.byId
  }

  /** Watermarks come from the one cursor and no two live records share one. */
  ghost predicate WatermarksDistinct(s: FlowState) {
    && (forall id :: id in s.byId ==> s.byId[id].recordSeq <= s.cursor)
    && (forall a, b :: a in s.byId && b in s.byId && a != b ==> s.byId[a].recordSeq != s.byId[b].recordSeq)
  }

  /** The four structures agree and the byte total is exact. */
  ghost predicate Consistent(s: FlowState) {
    && QueueMatches(s)
    && KeysMatch(s)
    && LinksLive(s)
    && WatermarksDistinct(s)
    && s.liveBytes == Total(s.byId, s.order)
  }

  // ---- internal operations -------------------------------------------------

  /** The state an insertion appends to: without the previous holder of the key. */
  function WithoutHolder(s: FlowState, id: Text): FlowState {
    if id in s.byId
    then s.(byId := s.byId - {id}, order := Without(s.order, id),
            liveBytes := SatSub(s.liveBytes, SummaryBytes(s.byId[id])))
    else s
  }

  function Insert(s: FlowState, id: Text, record: FlowRecord): FlowState {
    var base := WithoutHolder(s, id);
    var stamped := record.(recordSeq := base.cursor + 1);
    base.(byId := base.byId[id := stamped], order := base.order + [id],
          liveBytes := base.liveBytes + SummaryBytes(stamped), cursor := base.cursor + 1)
  }

  function Resolve(s: FlowState, id: Text): Option<Text> {
    if id in s.byId then Some(id)
    else if id in s.linkIndex then Some(s.linkIndex[id])
    else None
  }

  /** Swap in a new version of a live record, stamped with the next watermark. */
  function Replace(s: FlowState, id: Text, next: FlowRecord): FlowState
    requires id in s.byId
  {
    s.(byId := s.byId[id := next.(recordSeq := s.cursor + 1)],
       liveBytes := SatSub(s.liveBytes, SummaryBytes(s.byId[id])) + SummaryBytes(next),
       cursor := s.cursor + 1)
  }

  function Update(s: FlowState, id: Text, e: Edit): FlowState {
    var target := Resolve(s, id);
    if target.None? || target.value !in s.byId then s
    else Replace(s, target.value, ApplyEdit(e, s.byId[target.value]))
  }

  function DropOwner(index: map<Text, Text>, owner: Text): map<Text, Text> {
    map r | r in index && index[r] != owner :: index[r]
  }

  function Remove(s: FlowState, id: Text): (s': FlowState)
    ensures id in s.order ==> |s'.order| < |s.order|
  {
    assert id in s.order ==> |Without(s.order, id)| < |s.order| by {
      if id in s.order { WithoutShorter(s.order, id); }
    }
    var links := if id in s.byId && s.byId[id].responseId.Some?
                 then s.linkIndex - {s.byId[id].responseId.value} else s.linkIndex;
    FlowState(s.byId - {id}, Without(s.order, id), DropOwner(links, id),
              if id in s.byId then SatSub(s.liveBytes, SummaryBytes(s.byId[id])) else s.liveBytes,
              s.cursor + 1)
  }

  function RemoveAll(s: FlowState, ids: seq<Text>): FlowState
    decreases |ids|
  {
    if ids == [] then s else RemoveAll(Remove(s, ids[0]), ids[1..])
  }

  /** The ids, oldest first, whose records are older than the retention window. */
  function Expired(s: FlowState, ids: seq<Text>, now: nat): seq<Text> {
    if ids == [] then []
    else (if ids[0] in s.byId && s.byId[ids[0]].startedMs < SatSub(now, FLOW_TTL_MS) then [ids[0]] else [])
         + Expired(s, ids[1..], now)
  }

  function Prune(s: FlowState, now: nat): FlowState {
    RemoveAll(s, Expired(s, s.order, now))
  }

  function DropToCount(s: FlowState): FlowState
    decreases |s.order|
  {
    if |s.order| <= FLOW_CAP then s else DropToCount(Remove(s, s.order[0]))
  }

  function ShedOne(s: FlowState, id: Text): FlowState {
    if id in s.byId && HasBody(s.byId[id])
    then s.(byId := s.byId[id := Shed(s.byId[id])], liveBytes := SatSub(s.liveBytes, BodyBytes(s.byId[id])))
    else s
  }

  /** Phase one: drop bodies along `ids` until the total fits. */
  function ShedUntil(s: FlowState, quota: nat, ids: seq<Text>): FlowState
    decreases |ids|
  {
    if s.liveBytes <= quota || ids == [] then s
    else ShedUntil(ShedOne(s, ids[0]), quota, ids[1..])
  }

  /** Phase two: drop whole records from the front until the total fits. */
  function DropUntil(s: FlowState, quota: nat): FlowState
    decreases |s.order|
  {
    if s.liveBytes <= quota || s.order == [] then s
    else DropUntil(Remove(s, s.order[0]), quota)
  }

  function EnforceQuota(s: FlowState, quota: nat): FlowState {
    DropUntil(ShedUntil(s, quota, s.order), quota)
  }

  function EnforceCaps(s: FlowState, quota: nat): FlowState {
    EnforceQuota(DropToCount(s), quota)
  }

  // ---- the byte total ------------------------------------------------------

  lemma {:induction false} TotalDependsOnWeights(m: map<Text, FlowRecord>, n: map<Text, FlowRecord>, ids: seq<Text>)
    requires forall id :: id in ids ==> Weight(m, id) == Weight(n, id)
    ensures Total(m, ids) == Total(n, ids)
  {
    if ids != [] {
      assert ids[0] in ids;
      assert forall id :: id in ids[1..] ==> id in ids;
      TotalDependsOnWeights(m, n, ids[1..]);
    }
  }

  lemma {:induction false} TotalAppend(m: map<Text, FlowRecord>, ids: seq<Text>, id: Text)
    ensures Total(m, ids + [id]) == Total(m, ids) + Weight(m, id)
  {
    if ids == [] {
      assert [id][1..] == [];
    } else {
      assert (ids + [id])[1..] == ids[1..] + [id];
      TotalAppend(m, ids[1..], id);
    }
  }

  lemma {:induction false} TotalWithout(m: map<Text, FlowRecord>, ids: seq<Text>, id: Text)
    requires NoDup(ids) && id in ids
    ensures Total(m, Without(ids, id)) == Total(m, ids) - Weight(m, id)
    ensures Weight(m, id) <= Total(m, ids)
  {
    if ids[0] == id {
      WithoutHead(ids);
    } else {
      assert id in ids[1..];
      TotalWithout(m, ids[1..], id);
    }
  }

  lemma {:induction false} TotalReplace(m: map<Text, FlowRecord>, ids: seq<Text>, id: Text, r: FlowRecord)
    requires NoDup(ids) && id in ids
    ensures Total(m[id := r], ids) == Total(m, ids) - Weight(m, id) + SummaryBytes(r)
    ensures Weight(m, id) <= Total(m, ids)
  {
    if ids[0] == id {
      assert id !in ids[1..];
      TotalDependsOnWeights(m, m[id := r], ids[1..]);
    } else {
      assert id in ids[1..];
      TotalReplace(m, ids[1..], id, r);
    }
  }

  lemma HeadIsLive(s: FlowState)
    requires Consistent(s)
    ensures if s.order == [] then s.liveBytes == 0 else s.order[0] in s.byId && NoDup(s.order)
  {
  }

  // ---- what one removal does -----------------------------------------------

  lemma RemoveQueueAndTotal(s: FlowState, id: Text)
    requires QueueMatches(s) && s.liveBytes == Total(s.byId, s.order) && id in s.byId
    ensures var s' := Remove(s, id);
            && QueueMatches(s') && s'.liveBytes == Total(s'.byId, s'.order)
            && s'.liveBytes == s.liveBytes - SummaryBytes(s.byId[id])
  {
    var s' := Remove(s, id);
    WithoutElements(s.order, id);
    WithoutNoDup(s.order, id);
    TotalWithout(s.byId, s.order, id);
    TotalDependsOnWeights(s.byId, s'.byId, s'.order);
  }

  lemma RemoveConsistent(s: FlowState, id: Text)
    requires Consistent(s) && id in s.byId
    ensures Consistent(Remove(s, id))
    ensures Remove(s, id).liveBytes == s.liveBytes - SummaryBytes(s.byId[id])
  {
    hide QueueMatches, Total, SummaryBytes;
    RemoveQueueAndTotal(s, id);
  }

  ghost predicate SomeOwns(s: FlowState, ids: seq<Text>, r: Text) {
    exists id :: id in ids && id in s.byId && s.byId[id].responseId == Some(r)
  }

  /** What removing a batch leaves: exactly the other records, in order, with
      exactly the links of theirs that no removed record also claimed. */
  ghost predicate Removed(s: FlowState, ids: seq<Text>, s': FlowState) {
    && s'.byId == s.byId - (set id | id in ids)
    && s'.order == Outside(s.order, ids)
    && s'.cursor == s.cursor + |ids|
    && (forall r :: r in s'.linkIndex ==>
          r in s.linkIndex && s'.linkIndex[r] == s.linkIndex[r] && s.linkIndex[r] !in ids)
    && (forall r :: r in s.linkIndex && s.linkIndex[r] !in ids && !SomeOwns(s, ids, r) ==> r in s'.linkIndex)
    && (forall r :: SomeOwns(s, ids, r) ==> r !in s'.linkIndex)
  }

  lemma {:induction false} RemoveAllRecords(s: FlowState, ids: seq<Text>)
    ensures RemoveAll(s, ids).byId == s.byId - (set id | id in ids)
    ensures RemoveAll(s, ids).order == Outside(s.order, ids)
    ensures RemoveAll(s, ids).cursor == s.cursor + |ids|
    ensures RemoveAll(s, ids).liveBytes <= s.liveBytes
    decreases |ids|
  {
    if ids == [] {
      OutsideNone(s.order);
      assert s.byId - (set id | id in ids) == s.byId;
    } else {
      RemoveAllRecords(Remove(s, ids[0]), ids[1..]);
      OutsideStep(s.order, ids[0], ids[1..]);
      assert [ids[0]] + ids[1..] == ids;
      assert (set id | id in ids) == {ids[0]} + (set id | id in ids[1..]) by {
        assert forall id :: id in ids <==> id == ids[0] || id in ids[1..];
      }
      assert s.byId - {ids[0]} - (set id | id in ids[1..]) == s.byId - ({ids[0]} + (set id | id in ids[1..]));
    }
  }

  lemma {:induction false} RemoveAllLinks(s: FlowState, ids: seq<Text>, r: Text)
    ensures var links := RemoveAll(s, ids).linkIndex;
            && (r in links ==> r in s.linkIndex && links[r] == s.linkIndex[r] && links[r] !in ids)
            && (r in s.linkIndex && s.linkIndex[r] !in ids && !SomeOwns(s, ids, r) ==> r in links)
            && (SomeOwns(s, ids, r) ==> r !in links)
    decreases |ids|
  {
    if ids != [] {
      var mid := Remove(s, ids[0]);
      RemoveAllLinks(mid, ids[1..], r);
      assert forall id :: id in ids <==> id == ids[0] || id in ids[1..];
      if SomeOwns(mid, ids[1..], r) {
        var id :| id in ids[1..] && id in mid.byId && mid.byId[id].responseId == Some(r);
        assert id in ids && s.byId[id].responseId == Some(r);
      }
      if id :| id in ids && id in s.byId && s.byId[id].responseId == Some(r) {
        assert id != ids[0] ==> id in mid.byId && SomeOwns(mid, ids[1..], r);
      }
    }
  }

  lemma {:induction false} RemoveAllConsistent(s: FlowState, ids: seq<Text>)
    requires Consistent(s) && NoDup(ids) && forall id :: id in ids ==> id in s.byId
    ensures Consistent(RemoveAll(s, ids))
    decreases |ids|
  {
    if ids != [] {
      RemoveConsistent(s, ids[0]);
      assert forall id :: id in ids[1..] ==> id in ids && id != ids[0];
      RemoveAllConsistent(Remove(s, ids[0]), ids[1..]);
    }
  }

  lemma RemoveAllMeaning(s: FlowState, ids: seq<Text>)
    requires Consistent(s) && NoDup(ids) && forall id :: id in ids ==> id in s.byId
    ensures Consistent(RemoveAll(s, ids))
    ensures Removed(s, ids, RemoveAll(s, ids))
    ensures RemoveAll(s, ids).liveBytes <= s.liveBytes
  {
    RemoveAllConsistent(s, ids);
    RemoveAllRecords(s, ids);
    forall r { RemoveAllLinks(s, ids, r); }
  }

  lemma {:induction false} ExpiredMeaning(s: FlowState, ids: seq<Text>, now: nat)
    requires NoDup(ids)
    ensures NoDup(Expired(s, ids, now))
    ensures forall id :: id in Expired(s, ids, now) <==>
              id in ids && id in s.byId && s.byId[id].startedMs < SatSub(now, FLOW_TTL_MS)
  {
    if ids != [] {
      ExpiredMeaning(s, ids[1..], now);
      assert forall id :: id in ids <==> id == ids[0] || id in ids[1..];
    }
  }

  /** Pruning removes the expired records and nothing else. */
  lemma PruneMeaning(s: FlowState, now: nat)
    requires Consistent(s)
    ensures Consistent(Prune(s, now))
    ensures Removed(s, Expired(s, s.order, now), Prune(s, now))
    ensures forall id :: id in Prune(s, now).byId <==>
              id in s.byId && s.byId[id].startedMs >= SatSub(now, FLOW_TTL_MS)
    ensures Prune(s, now).liveBytes <= s.liveBytes
  {
    ExpiredMeaning(s, s.order, now);
    RemoveAllMeaning(s, Expired(s, s.order, now));
  }

  // ---- inserting and updating ----------------------------------------------

  lemma WithoutHolderFacts(s: FlowState, id: Text)
    requires Consistent(s)
    ensures var base := WithoutHolder(s, id);
            && QueueMatches(base) && id !in base.byId
            && base.liveBytes == Total(base.byId, base.order) && base.liveBytes <= s.liveBytes
  {
    if id in s.byId {
      WithoutElements(s.order, id);
      WithoutNoDup(s.order, id);
      TotalWithout(s.byId, s.order, id);
      TotalDependsOnWeights(s.byId, s.byId - {id}, Without(s.order, id));
    }
  }

  lemma InsertTotal(s: FlowState, id: Text, record: FlowRecord)
    requires Consistent(s)
    ensures Insert(s, id, record).liveBytes == Total(Insert(s, id, record).byId, Insert(s, id, record).order)
  {
    var base := WithoutHolder(s, id);
    var m := Insert(s, id, record).byId;
    WithoutHolderFacts(s, id);
    TotalAppend(m, base.order, id);
    TotalDependsOnWeights(base.byId, m, base.order);
  }

  lemma InsertQueue(s: FlowState, id: Text, record: FlowRecord)
    requires Consistent(s)
    ensures QueueMatches(Insert(s, id, record))
  {
    var base := WithoutHolder(s, id);
    var order := Insert(s, id, record).order;
    WithoutHolderFacts(s, id);
    assert forall x :: x in order <==> x in base.order || x == id;
    assert id !in base.order;
  }

  lemma InsertConsistent(s: FlowState, id: Text, record: FlowRecord)
    requires Consistent(s) && record.apiCallId == id
    ensures Consistent(Insert(s, id, record))
  {
    InsertTotal(s, id, record);
    InsertQueue(s, id, record);
  }

  lemma ReplaceTotal(s: FlowState, id: Text, next: FlowRecord)
    requires QueueMatches(s) && s.liveBytes == Total(s.byId, s.order) && id in s.byId
    ensures var s' := Replace(s, id, next);
            && QueueMatches(s') && s'.liveBytes == Total(s'.byId, s'.order)
            && s'.liveBytes == s.liveBytes - SummaryBytes(s.byId[id]) + SummaryBytes(next)
  {
    hide SummaryBytes;
    var stamped := next.(recordSeq := s.cursor + 1);
    StampingIsFree(next, s.cursor + 1);
    TotalReplace(s.byId, s.order, id, stamped);
  }

  lemma StampingIsFree(r: FlowRecord, mark: nat)
    ensures SummaryBytes(r.(recordSeq := mark)) == SummaryBytes(r)
  {
  }

  lemma ReplaceConsistent(s: FlowState, id: Text, next: FlowRecord)
    requires Consistent(s) && id in s.byId && next.apiCallId == id
    ensures Consistent(Replace(s, id, next))
    ensures Replace(s, id, next).liveBytes == s.liveBytes - SummaryBytes(s.byId[id]) + SummaryBytes(next)
    ensures Replace(s, id, next).order == s.order && Replace(s, id, next).byId.Keys == s.byId.Keys
  {
    hide QueueMatches, Total, SummaryBytes;
    ReplaceTotal(s, id, next);
  }

  lemma EditConsistent(s: FlowState, id: Text, e: Edit)
    requires Consistent(s) && id in s.byId
    ensures var s' := Replace(s, id, ApplyEdit(e, s.byId[id]));
            && Consistent(s') && s'.order == s.order && s'.byId.Keys == s.byId.Keys
            && (e.SkipsCaps() ==> s'.liveBytes == s.liveBytes)
  {
    var next := ApplyEdit(e, s.byId[id]);
    assert next.apiCallId == id by { EditsKeepIdentity(e, s.byId[id]); }
    ReplaceConsistent(s, id, next);
    assert e.SkipsCaps() ==> SummaryBytes(next) == SummaryBytes(s.byId[id]) by {
      if e.SkipsCaps() { UncappedEditsAreFree(e, s.byId[id]); }
    }
  }

  lemma UpdateConsistent(s: FlowState, id: Text, e: Edit)
    requires Consistent(s)
    ensures Consistent(Update(s, id, e))
    ensures Update(s, id, e).order == s.order && Update(s, id, e).byId.Keys == s.byId.Keys
    ensures e.SkipsCaps() ==> Update(s, id, e).liveBytes == s.liveBytes
  {
    hide Consistent;
    var target := Resolve(s, id);
    if target.Some? && target.value in s.byId { EditConsistent(s, target.value, e); }
  }

  // ---- the byte quota ------------------------------------------------------

  /** The state with the bodies of `ids` gone and everything else as it was. */
  ghost predicate BodiesShed(s: FlowState, ids: seq<Text>, s': FlowState) {
    && s'.order == s.order && s'.linkIndex == s.linkIndex && s'.cursor == s.cursor
    && s'.byId.Keys == s.byId.Keys
    && (forall id :: id in s.byId ==> s'.byId[id] == if id in ids then Shed(s.byId[id]) else s.byId[id])
  }

  function ShedAll(s: FlowState, ids: seq<Text>): FlowState
    decreases |ids|
  {
    if ids == [] then s else ShedAll(ShedOne(s, ids[0]), ids[1..])
  }

  lemma ShedTotal(s: FlowState, id: Text)
    requires QueueMatches(s) && s.liveBytes == Total(s.byId, s.order) && id in s.byId
    ensures var s' := ShedOne(s, id);
            && QueueMatches(s') && s'.liveBytes == Total(s'.byId, s'.order)
            && s'.liveBytes == s.liveBytes - BodyBytes(s.byId[id])
  {
    hide SummaryBytes, BodyBytes, HasBody, Shed;
    ShedFreesBodies(s.byId[id]);
    TotalReplace(s.byId, s.order, id, Shed(s.byId[id]));
  }

  lemma ShedOneConsistent(s: FlowState, id: Text)
    requires Consistent(s) && id in s.byId
    ensures Consistent(ShedOne(s, id)) && BodiesShed(s, [id], ShedOne(s, id))
    ensures ShedOne(s, id).liveBytes == s.liveBytes - BodyBytes(s.byId[id])
  {
    hide QueueMatches, Total, SummaryBytes, BodyBytes, HasBody;
    ShedFreesBodies(s.byId[id]);
    ShedTotal(s, id);
  }

  lemma ShedsCompose(s: FlowState, mid: FlowState, s': FlowState, x: Text, ids: seq<Text>)
    requires BodiesShed(s, [x], mid) && BodiesShed(mid, ids, s')
    ensures BodiesShed(s, [x] + ids, s')
  {
    hide Shed;
    forall id | id in s.byId
      ensures s'.byId[id] == if id in [x] + ids then Shed(s.byId[id]) else s.byId[id]
    {
      ShedFreesBodies(s.byId[id]);
    }
  }

  lemma {:induction false} ShedAllMeaning(s: FlowState, ids: seq<Text>)
    requires Consistent(s) && forall id :: id in ids ==> id in s.byId
    ensures Consistent(ShedAll(s, ids)) && BodiesShed(s, ids, ShedAll(s, ids))
    ensures ShedAll(s, ids).liveBytes <= s.liveBytes
    decreases |ids|
  {
    hide Consistent;
    if ids != [] {
      var mid := ShedOne(s, ids[0]);
      ShedOneConsistent(s, ids[0]);
      ShedAllMeaning(mid, ids[1..]);
      ShedsCompose(s, mid, ShedAll(s, ids), ids[0], ids[1..]);
      assert [ids[0]] + ids[1..] == ids;
    }
  }

  /** The least prefix of `ids` whose bodies must go, or all of them. */
  lemma {:induction false} ShedUntilStops(s: FlowState, quota: nat, ids: seq<Text>) returns (k: nat)
    ensures k <= |ids| && ShedUntil(s, quota, ids) == ShedAll(s, ids[..k])
    ensures forall j :: 0 <= j < k ==> ShedAll(s, ids[..j]).liveBytes > quota
    ensures ShedAll(s, ids[..k]).liveBytes <= quota || k == |ids|
    decreases |ids|
  {
    if s.liveBytes <= quota || ids == [] {
      k := 0;
      assert ids[..0] == [];
    } else {
      var rest := ShedUntilStops(ShedOne(s, ids[0]), quota, ids[1..]);
      k := rest + 1;
      forall j | 0 < j <= k ensures ShedAll(s, ids[..j]) == ShedAll(ShedOne(s, ids[0]), ids[1..][..j - 1]) {
        assert ids[..j][1..] == ids[1..][..j - 1];
      }
      assert ids[..0] == [];
    }
  }

  lemma RemoveAllFromHead(s: FlowState, j: nat)
    requires NoDup(s.order) && 0 < j <= |s.order|
    ensures var mid := Remove(s, s.order[0]);
            mid.order == s.order[1..] && RemoveAll(s, s.order[..j]) == RemoveAll(mid, mid.order[..j - 1])
  {
    WithoutHead(s.order);
    assert s.order[..j][1..] == s.order[1..][..j - 1];
  }

  lemma {:induction false} DropUntilStops(s: FlowState, quota: nat) returns (n: nat)
    requires Consistent(s)
    ensures n <= |s.order| && DropUntil(s, quota) == RemoveAll(s, s.order[..n])
    ensures forall j :: 0 <= j < n ==> RemoveAll(s, s.order[..j]).liveBytes > quota
    ensures DropUntil(s, quota).liveBytes <= quota
    decreases |s.order|
  {
    hide Consistent;
    assert s.order[..0] == [];
    HeadIsLive(s);
    if s.liveBytes <= quota || s.order == [] {
      n := 0;
    } else {
      RemoveConsistent(s, s.order[0]);
      var rest := DropUntilStops(Remove(s, s.order[0]), quota);
      RemoveAllFromHead(s, 1);
      n := rest + 1;
      RemoveAllFromHead(s, n);
      forall j | 0 <= j < n ensures RemoveAll(s, s.order[..j]).liveBytes > quota {
        if j > 0 { RemoveAllFromHead(s, j); }
      }
    }
  }

  /** The quota is met by the least oldest-first action. The bodies of the first
      `k` records are gone and the first `n` records are gone; one step less of
      either would have left the total over quota; and whole records go only
      after every body has gone. */
  ghost predicate LeastEviction(s: FlowState, quota: nat, k: nat, n: nat, s': FlowState) {
    && k <= |s.order| && n <= |s.order|
    && var shed := ShedAll(s, s.order[..k]);
    && BodiesShed(s, s.order[..k], shed)
    && Removed(shed, s.order[..n], s')
    && s'.liveBytes <= quota
    && (forall j :: 0 <= j < k ==> ShedAll(s, s.order[..j]).liveBytes > quota)
    && (forall j :: 0 <= j < n ==> RemoveAll(shed, s.order[..j]).liveBytes > quota)
    && (n > 0 ==> k == |s.order|)
  }

  lemma QuotaIsMetMinimally(s: FlowState, quota: nat) returns (k: nat, n: nat)
    requires Consistent(s)
    ensures Consistent(EnforceQuota(s, quota))
    ensures LeastEviction(s, quota, k, n, EnforceQuota(s, quota))
    ensures s.liveBytes <= quota ==> k == 0 && n == 0 && EnforceQuota(s, quota) == s
  {
    k := ShedUntilStops(s, quota, s.order);
    var shed := ShedAll(s, s.order[..k]);
    ShedAllMeaning(s, s.order[..k]);
    n := DropUntilStops(shed, quota);
    assert shed.order == s.order;
    if n > 0 {
      assert RemoveAll(shed, s.order[..0]).liveBytes > quota;
      assert s.order[..0] == [];
    }
    PrefixNoDup(s.order, n);
    RemoveAllMeaning(shed, s.order[..n]);
    if s.liveBytes <= quota {
      assert s.order[..0] == [] && ShedAll(s, []) == s;
    }
  }

  lemma PrefixNoDup(ids: seq<Text>, n: nat)
    requires NoDup(ids) && n <= |ids|
    ensures NoDup(ids[..n])
    ensures forall id :: id in ids[..n] ==> id in ids
  {
  }

  // ---- the record cap ------------------------------------------------------

  lemma {:induction false} DropToCountStops(s: FlowState)
    requires Consistent(s)
    ensures DropToCount(s) == RemoveAll(s, s.order[..SatSub(|s.order|, FLOW_CAP)])
    ensures Consistent(DropToCount(s)) && |DropToCount(s).order| <= FLOW_CAP
    ensures DropToCount(s).liveBytes <= s.liveBytes
    decreases |s.order|
  {
    hide Consistent, Remove, RemoveAll;
    if |s.order| <= FLOW_CAP {
      RemoveNone(s);
    } else {
      HeadIsLive(s);
      RemoveConsistent(s, s.order[0]);
      RemoveAllFromHead(s, |s.order| - FLOW_CAP);
      DropToCountStops(Remove(s, s.order[0]));
    }
  }

  lemma RemoveNone(s: FlowState)
    ensures RemoveAll(s, s.order[..0]) == s
  {
  }

  /** After the caps both bounds hold, whatever the state was. */
  lemma CapsBound(s: FlowState, quota: nat)
    requires Consistent(s)
    ensures Consistent(EnforceCaps(s, quota))
    ensures EnforceCaps(s, quota).liveBytes <= quota
    ensures |EnforceCaps(s, quota).order| <= FLOW_CAP
  {
    var counted := DropToCount(s);
    DropToCountStops(s);
    var k, n := QuotaIsMetMinimally(counted, quota);
    OutsidePrefix(counted.order, n);
  }

  // ---- which records the caps evict ----------------------------------------

  /** What the records of `ids` weigh without their bodies. */
  function BareTotal(m: map<Text, FlowRecord>, ids: seq<Text>): nat {
    if ids == [] then 0 else (if ids[0] in m then ScalarBytes(m[ids[0]]) else 0) + BareTotal(m, ids[1..])
  }

  /** The record at position `i` is of the surplus over the record cap, or it and all
      younger records together do not fit the quota even without their bodies. */
  predicate EvictedAt(s: FlowState, quota: nat, i: nat)
    requires i < |s.order|
  {
    i < SatSub(|s.order|, FLOW_CAP) || BareTotal(s.byId, s.order[i..]) > quota
  }

  lemma {:induction false} BareBelowTotal(m: map<Text, FlowRecord>, ids: seq<Text>)
    ensures BareTotal(m, ids) <= Total(m, ids)
    ensures (forall id :: id in ids && id in m ==> !HasBody(m[id])) ==> BareTotal(m, ids) == Total(m, ids)
  {
    if ids != [] {
      BareBelowTotal(m, ids[1..]);
      assert ids[0] in ids && forall id :: id in ids[1..] ==> id in ids;
    }
  }

  lemma {:induction false} BareGrowsBackwards(m: map<Text, FlowRecord>, ids: seq<Text>, i: nat, j: nat)
    requires i <= j <= |ids|
    ensures BareTotal(m, ids[j..]) <= BareTotal(m, ids[i..])
    decreases j - i
  {
    if i < j {
      BareGrowsBackwards(m, ids, i + 1, j);
      assert ids[i..][1..] == ids[i + 1..];
    }
  }

  lemma {:induction false} BareDependsOnScalars(m: map<Text, FlowRecord>, n: map<Text, FlowRecord>, ids: seq<Text>)
    requires forall id :: id in ids ==> id in m && id in n && ScalarBytes(m[id]) == ScalarBytes(n[id])
    ensures BareTotal(m, ids) == BareTotal(n, ids)
  {
    if ids != [] {
      BareDependsOnScalars(m, n, ids[1..]);
    }
  }

  lemma SheddingKeepsScalars(s: FlowState, ids: seq<Text>, s': FlowState, i: nat)
    requires QueueMatches(s) && BodiesShed(s, ids, s') && i <= |s.order|
    ensures BareTotal(s'.byId, s.order[i..]) == BareTotal(s.byId, s.order[i..])
  {
    forall id | id in s.order[i..] ensures id in s.byId && ScalarBytes(s'.byId[id]) == ScalarBytes(s.byId[id]) {
      assert id in s.order;
    }
    BareDependsOnScalars(s'.byId, s.byId, s.order[i..]);
  }

  lemma SuffixIsLeft(s: FlowState, n: nat)
    requires Consistent(s) && n <= |s.order|
    ensures var s' := RemoveAll(s, s.order[..n]);
            && s'.order == s.order[n..] && s'.liveBytes == Total(s.byId, s.order[n..])
            && forall i :: 0 <= i < |s.order| ==> (s.order[i] in s'.byId <==> i >= n)
  {
    var s' := RemoveAll(s, s.order[..n]);
    PrefixNoDup(s.order, n);
    RemoveAllMeaning(s, s.order[..n]);
    OutsidePrefix(s.order, n);
    TotalDependsOnWeights(s.byId, s'.byId, s.order[n..]);
  }

  /** The quota alone evicts a record exactly if it and all younger records do not fit
      without their bodies. */
  lemma QuotaKeepsExactly(s: FlowState, quota: nat, i: nat)
    requires Consistent(s) && i < |s.order|
    ensures s.order[i] in EnforceQuota(s, quota).byId <==> BareTotal(s.byId, s.order[i..]) <= quota
  {
    var k := ShedUntilStops(s, quota, s.order);
    var shed := ShedAll(s, s.order[..k]);
    PrefixNoDup(s.order, k);
    assert forall id :: id in s.order[..k] ==> id in s.byId;
    ShedAllMeaning(s, s.order[..k]);
    var n := DropUntilStops(shed, quota);
    SuffixIsLeft(shed, n);
    SuffixIsLeft(shed, i);
    SheddingKeepsScalars(s, s.order[..k], shed, i);
    hide Consistent, ShedUntil, DropUntil, ShedAll, RemoveAll, SummaryBytes, ScalarBytes, Total;
    if i >= n {
      BareBelowTotal(shed.byId, s.order[n..]);
      BareGrowsBackwards(shed.byId, s.order, n, i);
    } else {
      assert RemoveAll(shed, shed.order[..0]) == shed by { RemoveNone(shed); }
      assert k == |s.order|;
      AllShed(s, shed, i);
    }
  }

  lemma AllShed(s: FlowState, shed: FlowState, i: nat)
    requires QueueMatches(s) && BodiesShed(s, s.order[..|s.order|], shed) && i <= |s.order|
    ensures Total(shed.byId, s.order[i..]) == BareTotal(shed.byId, s.order[i..])
  {
    assert s.order[..|s.order|] == s.order;
    forall id | id in s.order[i..] && id in shed.byId ensures !HasBody(shed.byId[id]) {
      assert id in s.order;
      ShedFreesBodies(s.byId[id]);
    }
    BareBelowTotal(shed.byId, s.order[i..]);
  }

  lemma SuffixKeepsExactly(s: FlowState, left: FlowState, quota: nat, m: nat, i: nat)
    requires Consistent(left) && m <= i < |s.order| && left.order == s.order[m..]
    requires BareTotal(left.byId, s.order[i..]) == BareTotal(s.byId, s.order[i..])
    ensures s.order[i] in EnforceQuota(left, quota).byId <==> BareTotal(s.byId, s.order[i..]) <= quota
  {
    assert left.order[i - m..] == s.order[i..] && left.order[i - m] == s.order[i];
    hide Consistent, EnforceQuota, BareTotal;
    QuotaKeepsExactly(left, quota, i - m);
  }

  /** The caps evict exactly the records `EvictedAt` names: before the call, and from
      the scalars alone, a caller can tell which records will go. */
  lemma CapsKeepExactly(s: FlowState, quota: nat, i: nat)
    requires Consistent(s) && i < |s.order|
    ensures s.order[i] in EnforceCaps(s, quota).byId <==> !EvictedAt(s, quota, i)
  {
    var m := SatSub(|s.order|, FLOW_CAP);
    var counted := DropToCount(s);
    DropToCountStops(s);
    SuffixIsLeft(s, m);
    hide Consistent, DropToCount, EnforceQuota, RemoveAll, BareTotal, Total;
    if i >= m {
      SuffixKeepsRecords(s, m, i);
      SuffixKeepsExactly(s, counted, quota, m, i);
    } else {
      QuotaOnlyRemoves(counted, quota, s.order[i]);
    }
  }

  lemma SuffixKeepsRecords(s: FlowState, m: nat, i: nat)
    requires Consistent(s) && m <= i <= |s.order|
    ensures BareTotal(RemoveAll(s, s.order[..m]).byId, s.order[i..]) == BareTotal(s.byId, s.order[i..])
  {
    var left := RemoveAll(s, s.order[..m]);
    SuffixIsLeft(s, m);
    PrefixNoDup(s.order, m);
    RemoveAllMeaning(s, s.order[..m]);
    forall id | id in s.order[i..] ensures id in left.byId && id in s.byId && left.byId[id] == s.byId[id] {
      var j :| i <= j < |s.order| && s.order[j] == id;
    }
    hide Consistent, RemoveAll, ScalarBytes;
    BareDependsOnScalars(left.byId, s.byId, s.order[i..]);
  }

  lemma QuotaOnlyRemoves(s: FlowState, quota: nat, id: Text)
    requires Consistent(s) && id !in s.byId
    ensures id !in EnforceQuota(s, quota).byId
  {
    var k, n := QuotaIsMetMinimally(s, quota);
  }

  // ---- whose bodies the caps shed -------------------------------------------

  /** From position `m` on: with every record before position `i` stripped of its
      bodies and the others whole, the total is still over the quota. */
  predicate ShedAt(s: FlowState, quota: nat, m: nat, i: nat)
    requires m <= i <= |s.order|
  {
    BareTotal(s.byId, s.order[m..i]) + Total(s.byId, s.order[i..]) > quota
  }

  lemma {:induction false} TotalSplits(m: map<Text, FlowRecord>, ids: seq<Text>, i: nat)
    requires i <= |ids|
    ensures Total(m, ids) == Total(m, ids[..i]) + Total(m, ids[i..])
  {
    if i == 0 {
      assert ids[..0] == [] && ids[0..] == ids;
    } else {
      TotalSplits(m, ids[1..], i - 1);
      assert ids[..i][1..] == ids[1..][..i - 1] && ids[1..][i - 1..] == ids[i..];
    }
  }

  lemma {:induction false} BareAppend(m: map<Text, FlowRecord>, ids: seq<Text>, id: Text)
    requires id in m
    ensures BareTotal(m, ids + [id]) == BareTotal(m, ids) + ScalarBytes(m[id])
  {
    if ids == [] {
      assert [id][1..] == [];
    } else {
      assert (ids + [id])[1..] == ids[1..] + [id];
      BareAppend(m, ids[1..], id);
    }
  }

  /** Stripping one record more never adds. */
  lemma {:induction false} StrippingShrinks(s: FlowState, quota: nat, m: nat, i: nat, j: nat)
    requires QueueMatches(s) && m <= i <= j <= |s.order| && ShedAt(s, quota, m, j)
    ensures ShedAt(s, quota, m, i)
    decreases j - i
  {
    if i < j {
      var last := s.order[j - 1];
      assert s.order[m..j] == s.order[m..j - 1] + [last];
      assert last in s.order;
      BareAppend(s.byId, s.order[m..j - 1], last);
      assert s.order[j - 1..][1..] == s.order[j..];
      StrippingShrinks(s, quota, m, i, j - 1);
    }
  }

  lemma ShedAllTotal(s: FlowState, i: nat)
    requires Consistent(s) && i <= |s.order|
    ensures ShedAll(s, s.order[..i]).liveBytes == BareTotal(s.byId, s.order[..i]) + Total(s.byId, s.order[i..])
  {
    var ids, shed := s.order[..i], ShedAll(s, s.order[..i]);
    PrefixNoDup(s.order, i);
    assert forall id :: id in ids ==> id in s.byId;
    ShedAllMeaning(s, ids);
    TotalSplits(shed.byId, s.order, i);
    StrippedPrefix(s, ids, shed);
    WholeSuffix(s, i, shed);
    hide Total, BareTotal, QueueMatches, BodiesShed;
  }

  lemma StrippedPrefix(s: FlowState, ids: seq<Text>, shed: FlowState)
    requires BodiesShed(s, ids, shed) && forall id :: id in ids ==> id in s.byId
    ensures Total(shed.byId, ids) == BareTotal(s.byId, ids)
  {
    forall id | id in ids ensures !HasBody(shed.byId[id]) && ScalarBytes(shed.byId[id]) == ScalarBytes(s.byId[id]) {
      ShedFreesBodies(s.byId[id]);
    }
    BareBelowTotal(shed.byId, ids);
    BareDependsOnScalars(shed.byId, s.byId, ids);
  }

  lemma WholeSuffix(s: FlowState, i: nat, shed: FlowState)
    requires QueueMatches(s) && i <= |s.order| && BodiesShed(s, s.order[..i], shed)
    ensures Total(shed.byId, s.order[i..]) == Total(s.byId, s.order[i..])
  {
    forall id | id in s.order[i..] ensures Weight(shed.byId, id) == Weight(s.byId, id) {
      var j :| i <= j < |s.order| && s.order[j] == id;
      assert id in s.order;
      assert id !in s.order[..i];
    }
    TotalDependsOnWeights(s.byId, shed.byId, s.order[i..]);
  }

  /** The quota strips a record it keeps exactly if stripping all older ones would not
      have been enough. */
  lemma QuotaShedsExactly(s: FlowState, quota: nat, i: nat)
    requires Consistent(s) && i < |s.order|
    ensures var id, s' := s.order[i], EnforceQuota(s, quota);
            id in s.byId &&
            (id in s'.byId ==> s'.byId[id] == if ShedAt(s, quota, 0, i) then Shed(s.byId[id]) else s.byId[id])
  {
    var id := s.order[i];
    var k := ShedUntilStops(s, quota, s.order);
    var shed := ShedAll(s, s.order[..k]);
    PrefixNoDup(s.order, k);
    assert forall x :: x in s.order[..k] ==> x in s.byId;
    ShedAllMeaning(s, s.order[..k]);
    var n := DropUntilStops(shed, quota);
    PrefixNoDup(s.order, n);
    RemoveAllMeaning(shed, s.order[..n]);
    ShedAllTotal(s, i);
    ShedAllTotal(s, k);
    assert s.order[0..i] == s.order[..i] && s.order[0..k] == s.order[..k];
    assert id in s.order[..k] <==> i < k by { PrefixHas(s.order, k, i); }
    hide Consistent, ShedUntil, DropUntil, RemoveAll, ShedAll, Total, BareTotal;
    if k <= i && ShedAt(s, quota, 0, i) { StrippingShrinks(s, quota, 0, k, i); }
  }

  lemma PrefixHas(ids: seq<Text>, n: nat, i: nat)
    requires NoDup(ids) && n <= |ids| && i < |ids|
    ensures ids[i] in ids[..n] <==> i < n
  {
  }

  /** Removing a prefix leaves the records after it as they were. */
  lemma SuffixRecords(s: FlowState, m: nat)
    requires Consistent(s) && m <= |s.order|
    ensures var left := RemoveAll(s, s.order[..m]);
            && Consistent(left) && left.order == s.order[m..]
            && forall id :: id in s.order[m..] ==> id in left.byId && id in s.byId && left.byId[id] == s.byId[id]
  {
    var left := RemoveAll(s, s.order[..m]);
    SuffixIsLeft(s, m);
    PrefixNoDup(s.order, m);
    RemoveAllMeaning(s, s.order[..m]);
    hide RemoveAll;
    assert QueueMatches(left);
  }

  lemma SuffixSheds(s: FlowState, left: FlowState, quota: nat, m: nat, i: nat)
    requires m <= i < |s.order| && left.order == s.order[m..]
    requires forall id :: id in s.order[m..] ==> id in left.byId && id in s.byId && left.byId[id] == s.byId[id]
    ensures ShedAt(left, quota, 0, i - m) <==> ShedAt(s, quota, m, i)
  {
    var before, after := s.order[m..i], s.order[i..];
    assert left.order[0..i - m] == before && left.order[i - m..] == after;
    assert s.order[m..] == before + after;
    BareDependsOnScalars(left.byId, s.byId, before);
    hide SummaryBytes, ScalarBytes, BareTotal;
    TotalDependsOnWeights(left.byId, s.byId, after);
  }

  /** What the caps leave of a record they keep: its bodies are gone if and only if the
      quota could not be met by the bodies of the older records alone. */
  lemma CapsShedExactly(s: FlowState, quota: nat, i: nat)
    requires Consistent(s) && SatSub(|s.order|, FLOW_CAP) <= i < |s.order|
    ensures var id, s' := s.order[i], EnforceCaps(s, quota);
            id in s.byId &&
            (id in s'.byId ==>
               s'.byId[id] == if ShedAt(s, quota, SatSub(|s.order|, FLOW_CAP), i) then Shed(s.byId[id]) else s.byId[id])
  {
    var m := SatSub(|s.order|, FLOW_CAP);
    DropToCountStops(s);
    SuffixRecords(s, m);
    var left := DropToCount(s);
    hide Consistent, DropToCount, EnforceQuota, RemoveAll, ShedAt, Shed;
    QuotaShedsExactly(left, quota, i - m);
    SuffixSheds(s, left, quota, m, i);
    assert left.order[i - m] == s.order[i] && s.order[i] in s.order[m..] by {
      assert s.order[m..][i - m] == s.order[i];
    }
  }
}
