/** The join by either id: when the response-id index is the exact inverse of the
    records' own `responseId` fields, and when it stops being so. */
module LinkJoin {
  import opened Base
  import opened ScalarCap
  import opened FlowRecords
  import opened FlowStates
  import opened FlowStores

  /** A live record carries response id `r` exactly when the index sends `r` to it. */
  ghost predicate Joined(s: FlowState) {
    && (forall id :: id in s.byId && s.byId[id].responseId.Some? ==>
          s.byId[id].responseId.value in s.linkIndex && s.linkIndex[s.byId[id].responseId.value] == id)
    && (forall r :: r in s.linkIndex ==>
          s.linkIndex[r] in s.byId && s.byId[s.linkIndex[r]].responseId == Some(r))
  }

  /** The calls the program makes: linking goes through `link` only. */
  predicate Public(op: Op) {
    op.EditOp? ==> !op.edit.LinkEdit?
  }

  /** What a caller can see to be fresh before the call: an opened id that does
      not replace a linked record, a linked response id that is not in the index. */
  predicate LinkFresh(p: FlowState, op: Op) {
    match op
    case OpenOp(_, args, _) =>
      CapScalar(args.apiCallId) in p.byId ==> p.byId[CapScalar(args.apiCallId)].responseId.None?
    case LinkOp(responseId, apiCallId, _) =>
      LinkProceeds(p, apiCallId) ==> CapScalar(responseId) !in p.linkIndex
    case EditOp(_, _, _) => true
    case ReadOp(_) => true
  }

  lemma {:induction false} RemoveAllKeepsJoin(s: FlowState, ids: seq<Text>)
    requires Joined(s) && NoDup(ids) && forall id :: id in ids ==> id in s.byId
    ensures Joined(RemoveAll(s, ids))
    decreases |ids|
  {
    if ids != [] {
      assert forall id :: id in ids[1..] ==> id in ids && id != ids[0];
      RemoveAllKeepsJoin(Remove(s, ids[0]), ids[1..]);
    }
  }

  lemma SheddingKeepsJoin(s: FlowState, ids: seq<Text>, s': FlowState)
    requires Joined(s) && BodiesShed(s, ids, s')
    ensures Joined(s')
  {
  }

  lemma PruneKeepsJoin(s: FlowState, now: nat)
    requires Consistent(s) && Joined(s)
    ensures Joined(Prune(s, now))
  {
    ExpiredMeaning(s, s.order, now);
    RemoveAllKeepsJoin(s, Expired(s, s.order, now));
  }

  lemma QuotaKeepsJoin(s: FlowState, quota: nat)
    requires Consistent(s) && Joined(s)
    ensures Joined(EnforceQuota(s, quota))
  {
    var k := ShedUntilStops(s, quota, s.order);
    var shed := ShedAll(s, s.order[..k]);
    ShedAllMeaning(s, s.order[..k]);
    SheddingKeepsJoin(s, s.order[..k], shed);
    var n := DropUntilStops(shed, quota);
    PrefixNoDup(shed.order, n);
    RemoveAllKeepsJoin(shed, shed.order[..n]);
  }

  lemma CapsKeepJoin(s: FlowState, quota: nat)
    requires Consistent(s) && Joined(s)
    ensures Joined(EnforceCaps(s, quota))
  {
    var n := SatSub(|s.order|, FLOW_CAP);
    DropToCountStops(s);
    PrefixNoDup(s.order, n);
    RemoveAllKeepsJoin(s, s.order[..n]);
    QuotaKeepsJoin(DropToCount(s), quota);
  }

  /** Replacing or adding one record, with its links left as they were. */
  lemma AddingJoin(p: FlowState, t: FlowState, key: Text)
    requires Joined(p) && key in t.byId && t.byId[key].responseId.None? && t.linkIndex == p.linkIndex
    requires forall id :: id != key ==> (id in t.byId <==> id in p.byId)
    requires forall id :: id in t.byId && id != key ==> t.byId[id] == p.byId[id]
    ensures Joined(t) <==> (key in p.byId ==> p.byId[key].responseId.None?)
  {
    if key in p.byId && p.byId[key].responseId.Some? {
      assert t.linkIndex[p.byId[key].responseId.value] == key;
    }
  }

  lemma OpenJoin(p: FlowState, op: Op)
    requires Consistent(p) && Joined(p) && op.OpenOp?
    ensures Joined(Effect(p, op)) <==> LinkFresh(p, op)
  {
    hide Consistent, CapScalar, Joined;
    AddingJoin(p, Effect(p, op), CapScalar(op.args.apiCallId));
  }

  lemma PointingFreshJoin(p: FlowState, t: FlowState, key: Text, r: Text)
    requires Joined(p) && key in p.byId && r !in p.linkIndex
    requires t.linkIndex == p.linkIndex[r := key] && t.byId.Keys == p.byId.Keys
    requires t.byId[key].responseId == Some(r)
    requires forall id :: id in t.byId && id != key ==> t.byId[id] == p.byId[id]
    requires p.byId[key].responseId.None?
    ensures Joined(t)
  {
    forall id | id in t.byId && t.byId[id].responseId.Some?
      ensures t.byId[id].responseId.value in t.linkIndex && t.linkIndex[t.byId[id].responseId.value] == id
    {
      assert id != key ==> p.byId[id].responseId.value in p.linkIndex;
    }
  }

  /** Giving one unlinked record a response id and pointing the index at it. */
  lemma PointingJoin(p: FlowState, t: FlowState, key: Text, r: Text)
    requires Joined(p) && key in p.byId && p.byId[key].responseId.None?
    requires t.linkIndex == p.linkIndex[r := key] && t.byId.Keys == p.byId.Keys
    requires t.byId[key].responseId == Some(r)
    requires forall id :: id in t.byId && id != key ==> t.byId[id] == p.byId[id]
    ensures Joined(t) <==> r !in p.linkIndex
  {
    if r in p.linkIndex {
      var previous := p.linkIndex[r];
      assert previous != key && t.byId[previous].responseId == Some(r);
    } else {
      PointingFreshJoin(p, t, key, r);
    }
  }

  lemma LinkingJoin(p: FlowState, op: Op)
    requires Consistent(p) && Joined(p) && op.LinkOp? && LinkProceeds(p, op.apiCallId)
    ensures Joined(Effect(p, op)) <==> LinkFresh(p, op)
  {
    hide Consistent, CapScalar, Joined;
    PointingJoin(p, Effect(p, op), op.apiCallId, CapScalar(op.responseId));
  }

  lemma ReplacingKeepsJoin(p: FlowState, id: Text, next: FlowRecord)
    requires Joined(p) && id in p.byId && next.responseId == p.byId[id].responseId
    ensures Joined(Replace(p, id, next))
  {
  }

  lemma EditingJoin(p: FlowState, op: Op)
    requires Consistent(p) && Joined(p) && op.EditOp? && Public(op)
    ensures Joined(Effect(p, op))
  {
    hide Consistent;
    var t := Effect(p, op);
    UpdateConsistent(p, op.id, op.edit);
    if Hit(p, op).Some? {
      var hit := Hit(p, op).value;
      var next := ApplyEdit(op.edit, p.byId[hit]);
      assert next.responseId == p.byId[hit].responseId by { EditsKeepIdentity(op.edit, p.byId[hit]); }
      ReplacingKeepsJoin(p, hit, next);
    }
  }

  /** The effect of an operation keeps the join exact if and only if its new id was
      fresh; what the caps may still evict is another matter. */
  lemma JoinKeptExactlyWhenFresh(p: FlowState, op: Op)
    requires Consistent(p) && Joined(p) && Public(op)
    ensures Joined(Effect(p, op)) <==> LinkFresh(p, op)
  {
    match op
    case OpenOp(_, _, _) => OpenJoin(p, op);
    case LinkOp(_, _, _) => if LinkProceeds(p, op.apiCallId) { LinkingJoin(p, op); }
    case EditOp(_, _, _) => EditingJoin(p, op);
    case ReadOp(_) =>
  }

  lemma ApplyKeepsJoin(s: FlowState, op: Op, quota: nat)
    requires Consistent(s) && Joined(s) && Public(op) && LinkFresh(Prune(s, op.now), op)
    ensures Joined(Apply(s, op, quota))
  {
    hide Consistent;
    if !(op.EditOp? && NothingToRecord(op.edit)) {
      var p := Prune(s, op.now);
      PruneCarries(s, op.now);
      PruneKeepsJoin(s, op.now);
      JoinKeptExactlyWhenFresh(p, op);
      EffectExactly(p, op);
      if !LeavesCaps(p, op) { CapsKeepJoin(Effect(p, op), quota); }
    }
  }

  // ---- whole runs with fresh ids -------------------------------------------

  /** No two opens of a run share an id and no two links share a response id. */
  ghost predicate FreshIds(ops: seq<Op>, usedIds: set<Text>, usedLinks: set<Text>)
    decreases |ops|
  {
    ops != [] ==>
      && Public(ops[0])
      && (ops[0].OpenOp? ==> CapScalar(ops[0].args.apiCallId) !in usedIds)
      && (ops[0].LinkOp? ==> CapScalar(ops[0].responseId) !in usedLinks)
      && FreshIds(ops[1..], usedIds + OpenedBy(ops[0]), usedLinks + LinkedBy(ops[0]))
  }

  function OpenedBy(op: Op): set<Text> {
    if op.OpenOp? then {CapScalar(op.args.apiCallId)} else {}
  }

  function LinkedBy(op: Op): set<Text> {
    if op.LinkOp? then {CapScalar(op.responseId)} else {}
  }

  lemma ApplyUsesKnownIds(s: FlowState, op: Op, quota: nat)
    requires Consistent(s)
    ensures forall id :: id in Apply(s, op, quota).byId ==>
              id in s.byId || id in OpenedBy(op)
    ensures forall r :: r in Apply(s, op, quota).linkIndex ==>
              r in s.linkIndex || r in LinkedBy(op)
  {
    hide Consistent;
    if !(op.EditOp? && NothingToRecord(op.edit)) {
      var p := Prune(s, op.now);
      PruneCarries(s, op.now);
      EffectExactly(p, op);
      CapsCarry(Effect(p, op), quota);
      forall id | id in Effect(p, op).byId
        ensures id in p.byId || id in OpenedBy(op)
      {
        assert ExactStepOf(p, op, Effect(p, op), id);
      }
    }
  }

  /** Over every run whose ids are fresh the join is a bijection throughout. */
  lemma {:induction false} FreshRunsStayJoined(
      s: FlowState, ops: seq<Op>, quota: nat, usedIds: set<Text>, usedLinks: set<Text>)
    requires Consistent(s) && Joined(s) && FreshIds(ops, usedIds, usedLinks)
    requires s.byId.Keys <= usedIds && s.linkIndex.Keys <= usedLinks
    ensures Joined(Run(s, ops, quota))
    decreases |ops|
  {
    hide Consistent;
    if ops != [] {
      PruneCarries(s, ops[0].now);
      ApplyKeepsJoin(s, ops[0], quota);
      ApplyStep(s, ops[0], quota);
      ApplyUsesKnownIds(s, ops[0], quota);
      FreshRunsStayJoined(Apply(s, ops[0], quota), ops[1..], quota,
                          usedIds + OpenedBy(ops[0]), usedLinks + LinkedBy(ops[0]));
    }
  }

  // ---- what the join means for callers -------------------------------------

  /** `detail`: the record by its own id, else through the index. */
  function Detail(s: FlowState, id: Text): Option<FlowRecord> {
    var hit := Resolve(s, id);
    if hit.Some? && hit.value in s.byId then Some(s.byId[hit.value]) else None
  }

  /** A snapshot entry shows what the record holds, bodies aside, field by field. */
  predicate Shows(e: FlowSummary, r: FlowRecord) {
    && e.apiCallId == r.apiCallId && e.responseId == r.responseId && e.httpMethod == r.httpMethod && e.uri == r.uri
    && e.modelRequested == r.modelRequested && e.modelServed == r.modelServed && e.upstreamTarget == r.upstreamTarget
    && e.usage == r.usage && e.status == r.status && e.terminalReason == r.terminalReason
    && e.startedMs == r.startedMs && e.finishedMs == r.finishedMs && e.elapsedMs == r.elapsedMs
    && e.phases == r.phases && e.attempts == r.attempts && e.firstUpstreamByteMs == r.firstUpstreamByteMs
    && e.clientLabel == r.clientLabel && e.clientSource == r.clientSource
  }

  /** Entry `i` of a snapshot is the `i`-th youngest flow of the queue, and shows the
      record `detail` returns for the entry's own id. */
  lemma SnapshotShowsDetail(s: FlowState, i: nat)
    requires Consistent(s) && i < |s.order|
    ensures |Summaries(s, s.order)| == |s.order|
    ensures var e := Summaries(s, s.order)[i];
            && e.apiCallId == s.order[|s.order| - 1 - i]
            && Detail(s, e.apiCallId).Some? && Shows(e, Detail(s, e.apiCallId).value)
  {
    assert QueueMatches(s) && KeysMatch(s);
    SummariesNewestFirst(s, s.order, i);
    var id := s.order[|s.order| - 1 - i];
    assert id in s.byId && s.byId[id].apiCallId == id;
    hide Consistent, Summaries;
  }

  /** The entries of a snapshot, taken after its prune, are of live records. */
  lemma SnapshotShowsRecords(s: FlowState, now: nat, i: nat)
    requires Consistent(s) && i < |Summaries(Prune(s, now), Prune(s, now).order)|
    ensures var e := Summaries(Prune(s, now), Prune(s, now).order)[i];
            e.apiCallId in s.byId && Shows(e, s.byId[e.apiCallId])
  {
    var cut := Prune(s, now);
    PruneCarries(s, now);
    assert QueueMatches(cut);
    hide Prune, Summaries;
    SummariesNewestFirst(cut, cut.order, i);
    SnapshotShowsDetail(cut, i);
    var id := cut.order[|cut.order| - 1 - i];
    assert id in cut.byId;
    hide Consistent, Shows;
  }

  /** A flow answers to its response id exactly when no flow was opened under
      that very string: then reads and every mutator act on the same record
      through either id. */
  lemma EitherIdReachesTheRecord(s: FlowState, id: Text, r: Text, e: Edit)
    requires Consistent(s) && Joined(s) && id in s.byId && s.byId[id].responseId == Some(r)
    ensures Detail(s, id) == Some(s.byId[id])
    ensures Detail(s, r) == Detail(s, id) <==> (r !in s.byId || r == id)
    ensures Update(s, r, e) == Update(s, id, e) <==> (r !in s.byId || r == id)
  {
    if r in s.byId && r != id {
      assert s.byId[r].apiCallId == r && s.byId[id].apiCallId == id;
      assert Update(s, r, e).byId[id].recordSeq <= s.cursor < Update(s, id, e).byId[id].recordSeq;
    }
  }

  /** The first link wins: linking a linked flow changes nothing but the prune. */
  lemma FirstLinkWins(s: FlowState, op: Op, quota: nat)
    requires op.LinkOp? && op.apiCallId in Prune(s, op.now).byId
    requires Prune(s, op.now).byId[op.apiCallId].responseId.Some?
    ensures Apply(s, op, quota) == Prune(s, op.now)
  {
  }

  /** No alias outlives its flow: an id that is not live is not the answer of any
      lookup, so no mutator can reach it through an alias. */
  lemma NoDanglingAlias(s: FlowState, gone: Text, alias: Text)
    requires Consistent(s) && gone !in s.byId
    ensures Resolve(s, alias) != Some(gone)
  {
  }
}
