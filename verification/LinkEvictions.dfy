/** Links and evictions: when a whole call, caps included, keeps the join by either
    id, and what a reused response id costs. */
module LinkEvictions {
  import opened Base
  import opened ScalarCap
  import opened FlowRecords
  import opened FlowStates
  import opened FlowStores
  import opened LinkJoin
  import FlowHistories

  // ---- what the caps leave of the links --------------------------------------------

  /** A record that carried `r` is gone. */
  ghost predicate CarrierGone(t: FlowState, t': FlowState, r: Text) {
    exists id :: id in t.byId && id !in t'.byId && t.byId[id].responseId == Some(r)
  }

  ghost predicate LinkEvicted(t: FlowState, t': FlowState, r: Text) {
    && (r in t'.linkIndex <==> r in t.linkIndex && t.linkIndex[r] in t'.byId && !CarrierGone(t, t', r))
    && (r in t'.linkIndex ==> r in t.linkIndex && t'.linkIndex[r] == t.linkIndex[r])
  }

  /** `t'` is `t` after some evictions: the records left carry what they carried, and
      a link is left exactly if its owner is and no record that carried it has gone. */
  ghost predicate Evicts(t: FlowState, t': FlowState) {
    && (forall id :: id in t'.byId ==> id in t.byId && t'.byId[id].responseId == t.byId[id].responseId)
    && (forall r: Text :: LinkEvicted(t, t', r))
  }

  lemma RemovalEvicts(s: FlowState, ids: seq<Text>, s': FlowState)
    requires Consistent(s) && Removed(s, ids, s')
    ensures Evicts(s, s')
  {
    forall r: Text ensures LinkEvicted(s, s', r) {
      assert SomeOwns(s, ids, r) <==> CarrierGone(s, s', r);
      if r in s.linkIndex { assert s.linkIndex[r] in s'.byId <==> s.linkIndex[r] !in ids; }
    }
  }

  lemma SheddingEvicts(s: FlowState, ids: seq<Text>, s': FlowState)
    requires Consistent(s) && BodiesShed(s, ids, s')
    ensures Evicts(s, s')
  {
    forall r: Text ensures LinkEvicted(s, s', r) {
      assert !CarrierGone(s, s', r);
    }
  }

  lemma EvictsIsTransitive(a: FlowState, b: FlowState, c: FlowState)
    requires Evicts(a, b) && Evicts(b, c)
    ensures Evicts(a, c)
  {
    forall r: Text ensures LinkEvicted(a, c, r) {
      assert LinkEvicted(a, b, r) && LinkEvicted(b, c, r);
    }
  }

  lemma CapsEvict(t: FlowState, quota: nat)
    requires Consistent(t)
    ensures Evicts(t, EnforceCaps(t, quota))
  {
    var surplus := t.order[..SatSub(|t.order|, FLOW_CAP)];
    var counted := DropToCount(t);
    DropToCountStops(t);
    PrefixNoDup(t.order, |surplus|);
    RemoveAllMeaning(t, surplus);
    RemovalEvicts(t, surplus, counted);
    QuotaEvicts(counted, quota);
    hide Consistent, Evicts;
    EvictsIsTransitive(t, counted, EnforceCaps(t, quota));
  }

  lemma QuotaEvicts(s: FlowState, quota: nat)
    requires Consistent(s)
    ensures Evicts(s, EnforceQuota(s, quota))
  {
    hide Consistent;
    var k := ShedUntilStops(s, quota, s.order);
    var shed := ShedAll(s, s.order[..k]);
    PrefixIsLive(s, k);
    ShedAllMeaning(s, s.order[..k]);
    SheddingEvicts(s, s.order[..k], shed);
    var n := DropUntilStops(shed, quota);
    PrefixIsLive(shed, n);
    RemoveAllMeaning(shed, shed.order[..n]);
    RemovalEvicts(shed, shed.order[..n], EnforceQuota(s, quota));
    hide Evicts;
    EvictsIsTransitive(s, shed, EnforceQuota(s, quota));
  }

  lemma PrefixIsLive(s: FlowState, n: nat)
    requires Consistent(s) && n <= |s.order|
    ensures NoDup(s.order[..n]) && forall id :: id in s.order[..n] ==> id in s.byId
  {
    PrefixNoDup(s.order, n);
  }

  // ---- the join after a whole call ---------------------------------------------------

  /** `t` is `p` with the linked record under `key` replaced by one without a link. */
  ghost predicate Replaced(p: FlowState, t: FlowState, key: Text) {
    && key in p.byId && p.byId[key].responseId.Some? && key in t.byId && t.byId[key].responseId.None?
    && t.linkIndex == p.linkIndex && t.byId.Keys == p.byId.Keys
    && forall id :: id in t.byId && id != key ==> t.byId[id] == p.byId[id]
  }

  /** `t` is `p` with the unlinked record `key` linked to `r`, which was in use. */
  ghost predicate Relinked(p: FlowState, t: FlowState, key: Text, r: Text) {
    && key in p.byId && p.byId[key].responseId.None? && r in p.linkIndex
    && t.linkIndex == p.linkIndex[r := key] && t.byId.Keys == p.byId.Keys && t.byId[key].responseId == Some(r)
    && forall id :: id in t.byId && id != key ==> t.byId[id] == p.byId[id]
  }

  /** Evictions from a state whose one record under `key` has lost its link: the join
      holds again exactly when that record is gone. */
  lemma JoinAfterOpen(p: FlowState, t: FlowState, key: Text, t': FlowState)
    requires Joined(p) && Evicts(t, t') && LinksLive(t') && Replaced(p, t, key)
    ensures Joined(t') <==> key !in t'.byId
  {
    var v := p.byId[key].responseId.value;
    assert LinkEvicted(t, t', v);
    if key in t'.byId {
      assert p.linkIndex[v] == key;
      assert !CarrierGone(t, t', v);
      assert v in t'.linkIndex && t'.linkIndex[v] == key;
    } else {
      forall id | id in t'.byId && t'.byId[id].responseId.Some?
        ensures t'.byId[id].responseId.value in t'.linkIndex && t'.linkIndex[t'.byId[id].responseId.value] == id
      {
        assert LinkEvicted(t, t', t'.byId[id].responseId.value);
      }
      forall r | r in t'.linkIndex
          ensures t'.linkIndex[r] in t'.byId && t'.byId[t'.linkIndex[r]].responseId == Some(r) {
        assert LinkEvicted(t, t', r);
      }
    }
  }

  /** Evictions from a state in which two records carry `r`: the join holds again
      exactly when both are gone. */
  lemma JoinAfterLink(p: FlowState, t: FlowState, key: Text, r: Text, t': FlowState)
    requires Joined(p) && Evicts(t, t') && LinksLive(t') && Relinked(p, t, key, r)
    ensures Joined(t') <==> key !in t'.byId && p.linkIndex[r] !in t'.byId
  {
    var x := p.linkIndex[r];
    assert x != key && t.byId[x].responseId == Some(r);
    assert LinkEvicted(t, t', r);
    if key in t'.byId || x in t'.byId {
      BothOrNone(t, t', key, x, r);
    } else {
      NoneLeftJoins(p, t, key, r, t');
    }
  }

  lemma CarrierLinked(p: FlowState, t: FlowState, key: Text, r: Text, t': FlowState, id: Text)
    requires Joined(p) && Evicts(t, t') && Relinked(p, t, key, r) && key !in t'.byId && p.linkIndex[r] !in t'.byId
    requires id in t'.byId && t'.byId[id].responseId.Some?
    ensures t'.byId[id].responseId.value in t'.linkIndex && t'.linkIndex[t'.byId[id].responseId.value] == id
  {
    var v := t'.byId[id].responseId.value;
    assert LinkEvicted(t, t', v);
    hide Joined, Evicts;
    assert !CarrierGone(t, t', v);
  }

  lemma LinkCarried(p: FlowState, t: FlowState, key: Text, r: Text, t': FlowState, q: Text)
    requires Joined(p) && Evicts(t, t') && LinksLive(t') && Relinked(p, t, key, r) && key !in t'.byId
    requires q in t'.linkIndex
    ensures t'.linkIndex[q] in t'.byId && t'.byId[t'.linkIndex[q]].responseId == Some(q)
  {
    assert LinkEvicted(t, t', q);
    assert q != r;
    hide LinkEvicted;
  }

  lemma NoneLeftJoins(p: FlowState, t: FlowState, key: Text, r: Text, t': FlowState)
    requires Joined(p) && Evicts(t, t') && LinksLive(t') && Relinked(p, t, key, r)
    requires key !in t'.byId && p.linkIndex[r] !in t'.byId
    ensures Joined(t')
  {
    assert r in p.linkIndex;
    forall id | id in t'.byId && t'.byId[id].responseId.Some?
      ensures t'.byId[id].responseId.value in t'.linkIndex && t'.linkIndex[t'.byId[id].responseId.value] == id
    {
      hide Joined, Evicts, Relinked, LinksLive;
      CarrierLinked(p, t, key, r, t', id);
    }
    forall q | q in t'.linkIndex ensures t'.linkIndex[q] in t'.byId && t'.byId[t'.linkIndex[q]].responseId == Some(q) {
      hide Joined, Evicts, Relinked, LinksLive;
      LinkCarried(p, t, key, r, t', q);
    }
    hide Evicts, Relinked, LinksLive;
  }

  lemma BothOrNone(t: FlowState, t': FlowState, key: Text, x: Text, r: Text)
    requires Evicts(t, t') && key in t.byId && x in t.byId && key != x
    requires t.byId[key].responseId == Some(r) && t.byId[x].responseId == Some(r)
    requires key in t'.byId || x in t'.byId
    ensures !Joined(t')
  {
    assert LinkEvicted(t, t', r);
    if !(key in t'.byId && x in t'.byId) { assert CarrierGone(t, t', r); }
  }

  // ---- which of the records at odds the caps evict ------------------------------------

  lemma {:induction false} BareReplace(m: map<Text, FlowRecord>, ids: seq<Text>, id: Text, r: FlowRecord)
    requires NoDup(ids) && id in m
    ensures BareTotal(m[id := r], ids) + (if id in ids then ScalarBytes(m[id]) else 0)
         == BareTotal(m, ids) + (if id in ids then ScalarBytes(r) else 0)
  {
    if ids != [] {
      BareReplace(m, ids[1..], id, r);
      assert ids == [ids[0]] + ids[1..];
      assert ids[0] !in ids[1..];
    }
  }

  /** A call to open a flow leaves the flow live if and only if what it is opened with
      fits the quota by itself, without its body. */
  lemma OpenedStaysExactly(s: FlowState, op: Op, quota: nat)
    requires Consistent(s) && op.OpenOp?
    ensures CapScalar(op.args.apiCallId) in Apply(s, op, quota).byId
            <==> ScalarBytes(NewRecord(op.cell, op.args, op.now)) <= quota
  {
    var p := Prune(s, op.now);
    PruneCarries(s, op.now);
    EffectExactly(p, op);
    OpenedEvicted(p, op, quota);
  }

  lemma OpenedEvicted(p: FlowState, op: Op, quota: nat)
    requires op.OpenOp? && Consistent(Effect(p, op))
    ensures CapScalar(op.args.apiCallId) in EnforceCaps(Effect(p, op), quota).byId
            <==> ScalarBytes(NewRecord(op.cell, op.args, op.now)) <= quota
  {
    var t, key, record := Effect(p, op), CapScalar(op.args.apiCallId), NewRecord(op.cell, op.args, op.now);
    hide Consistent, EnforceCaps, NewRecord, CapScalar;
    var last := |t.order| - 1;
    CapsKeepExactly(t, quota, last);
    assert t.order[last] == key && t.order[last..] == [key];
    BareTotalOfOne(t.byId, key);
    assert t.byId[key] == record.(recordSeq := t.byId[key].recordSeq);
  }

  lemma BareTotalOfOne(m: map<Text, FlowRecord>, id: Text)
    requires id in m
    ensures BareTotal(m, [id]) == ScalarBytes(m[id])
  {
    assert [id][1..] == [];
  }

  /** If the caps evict a record they evict every older one. */
  lemma EvictedAreAPrefix(s: FlowState, quota: nat, i: nat, j: nat)
    requires i <= j < |s.order| && EvictedAt(s, quota, j)
    ensures EvictedAt(s, quota, i)
  {
    BareGrowsBackwards(s.byId, s.order, i, j);
  }

  /** `link` gave record `key` the response id `r`: whether the record at position `n`
      is evicted then. */
  predicate EvictedAfterLink(p: FlowState, key: Text, r: Text, quota: nat, n: nat)
    requires n < |p.order|
  {
    || n < SatSub(|p.order|, FLOW_CAP)
    || BareTotal(p.byId, p.order[n..]) + (if n <= IndexOf(p.order, key) then |r| else 0) > quota
  }

  lemma LinkedEvicted(p: FlowState, op: Op, quota: nat, n: nat)
    requires Consistent(p) && op.LinkOp? && LinkProceeds(p, op.apiCallId) && Consistent(Effect(p, op)) && n < |p.order|
    ensures p.order[n] in EnforceCaps(Effect(p, op), quota).byId
            <==> !EvictedAfterLink(p, op.apiCallId, CapScalar(op.responseId), quota, n)
  {
    LinkedSuffix(p, op, n);
    LinkedState(p, op);
    hide Effect, EnforceCaps, CapScalar, ApplyEdit, BareTotal;
    CapsKeepExactly(Effect(p, op), quota, n);
    hide Consistent, IndexOf;
  }

  /** What the link adds to the suffix from position `n`. */
  lemma LinkedSuffix(p: FlowState, op: Op, n: nat)
    requires Consistent(p) && op.LinkOp? && LinkProceeds(p, op.apiCallId) && n < |p.order|
    ensures BareTotal(Effect(p, op).byId, p.order[n..])
         == BareTotal(p.byId, p.order[n..])
            + if n <= IndexOf(p.order, op.apiCallId) then |CapScalar(op.responseId)| else 0
  {
    var key, r := op.apiCallId, CapScalar(op.responseId);
    var linked := ApplyEdit(LinkEdit(r), p.byId[key]).(recordSeq := p.cursor + 1);
    LinkedState(p, op);
    assert NoDup(p.order) && key in p.order;
    hide Consistent, Effect, CapScalar, ApplyEdit, ScalarBytes;
    BareReplace(p.byId, p.order[n..], key, linked);
  }

  lemma LinkedState(p: FlowState, op: Op)
    requires op.LinkOp? && LinkProceeds(p, op.apiCallId)
    ensures var key, r := op.apiCallId, CapScalar(op.responseId);
            && Effect(p, op).order == p.order
            && Effect(p, op).byId == p.byId[key := ApplyEdit(LinkEdit(r), p.byId[key]).(recordSeq := p.cursor + 1)]
            && Effect(p, op).byId[key].responseId == Some(r)
            && Effect(p, op).linkIndex == p.linkIndex[r := key]
  {
    hide CapScalar;
  }

  lemma OpenedState(p: FlowState, op: Op)
    requires op.OpenOp? && !LinkFresh(p, op)
    ensures Replaced(p, Effect(p, op), CapScalar(op.args.apiCallId))
  {
    hide CapScalar;
  }

  lemma RelinkedState(p: FlowState, op: Op)
    requires op.LinkOp? && !LinkFresh(p, op)
    ensures Relinked(p, Effect(p, op), op.apiCallId, CapScalar(op.responseId))
  {
    LinkedState(p, op);
    hide CapScalar, Effect;
  }

  /** The records a call with a used id leaves at odds, an opened record that replaced
      a linked one, or two that share a response id, will all be evicted by its caps.
      It reads the pruned state, the call and the quota only. */
  predicate OffendersEvicted(p: FlowState, op: Op, quota: nat) {
    match op
    case OpenOp(cell, args, now) => ScalarBytes(NewRecord(cell, args, now)) > quota
    case LinkOp(responseId, apiCallId, _) =>
      var r := CapScalar(responseId);
      r in p.linkIndex &&
      var younger := Max(IndexOf(p.order, apiCallId), IndexOf(p.order, p.linkIndex[r]));
      younger < |p.order| && EvictedAfterLink(p, apiCallId, r, quota, younger)
    case EditOp(_, _, _) => false
    case ReadOp(_) => false
  }

  /** Two records are both evicted exactly when the younger is. */
  lemma YoungerDecides(t: FlowState, quota: nat, i: nat, j: nat)
    requires Consistent(t) && i < |t.order| && j < |t.order|
    ensures t.order[i] !in EnforceCaps(t, quota).byId && t.order[j] !in EnforceCaps(t, quota).byId
            <==> t.order[Max(i, j)] !in EnforceCaps(t, quota).byId
  {
    CapsKeepExactly(t, quota, i);
    CapsKeepExactly(t, quota, j);
    hide Consistent, EnforceCaps, EvictedAt;
    if i <= j && EvictedAt(t, quota, j) { EvictedAreAPrefix(t, quota, i, j); }
    if j <= i && EvictedAt(t, quota, i) { EvictedAreAPrefix(t, quota, j, i); }
  }

  lemma BothEvicted(p: FlowState, op: Op, quota: nat)
    requires Consistent(p) && op.LinkOp? && !LinkFresh(p, op) && Consistent(Effect(p, op))
    ensures var t', r := EnforceCaps(Effect(p, op), quota), CapScalar(op.responseId);
            r in p.linkIndex
            && (op.apiCallId !in t'.byId && p.linkIndex[r] !in t'.byId <==> OffendersEvicted(p, op, quota))
  {
    LinkedState(p, op);
    hide Effect, EnforceCaps, CapScalar, Consistent, EvictedAfterLink, LinkFresh, LinkProceeds;
    var i, j := IndexOf(p.order, op.apiCallId), IndexOf(p.order, p.linkIndex[CapScalar(op.responseId)]);
    LinkedEvicted(p, op, quota, Max(i, j));
    YoungerDecides(Effect(p, op), quota, i, j);
  }

  lemma OpenEffectJoin(p: FlowState, op: Op, quota: nat, t': FlowState)
    requires Joined(p) && op.OpenOp? && !LinkFresh(p, op) && Consistent(Effect(p, op))
    requires t' == EnforceCaps(Effect(p, op), quota) && Evicts(Effect(p, op), t') && LinksLive(t')
    ensures Joined(t') <==> OffendersEvicted(p, op, quota)
  {
    OpenedEvicted(p, op, quota);
    OpenedState(p, op);
    hide Consistent, EnforceCaps, CapScalar, Joined, Evicts, LinksLive, ScalarBytes, Effect, NewRecord, Replaced,
        LinkFresh;
    JoinAfterOpen(p, Effect(p, op), CapScalar(op.args.apiCallId), t');
  }

  lemma LinkEffectJoin(p: FlowState, op: Op, quota: nat, t': FlowState)
    requires Consistent(p) && Joined(p) && op.LinkOp? && !LinkFresh(p, op) && Consistent(Effect(p, op))
    requires t' == EnforceCaps(Effect(p, op), quota) && Evicts(Effect(p, op), t') && LinksLive(t')
    ensures Joined(t') <==> OffendersEvicted(p, op, quota)
  {
    BothEvicted(p, op, quota);
    RelinkedState(p, op);
    hide Consistent, EnforceCaps, CapScalar, Joined, Evicts, LinksLive, OffendersEvicted, Effect, Relinked, LinkFresh;
    JoinAfterLink(p, Effect(p, op), op.apiCallId, CapScalar(op.responseId), t');
  }

  lemma EffectJoin(p: FlowState, op: Op, quota: nat)
    requires Consistent(p) && Joined(p) && !LinkFresh(p, op) && Consistent(Effect(p, op))
    ensures Joined(EnforceCaps(Effect(p, op), quota)) <==> OffendersEvicted(p, op, quota)
  {
    var t := Effect(p, op);
    var t' := EnforceCaps(t, quota);
    CapsBound(t, quota);
    CapsEvict(t, quota);
    assert LinksLive(t');
    assert op.OpenOp? || op.LinkOp?;
    hide Consistent, EnforceCaps, Joined, Evicts, LinksLive, LinkFresh, OffendersEvicted, Effect;
    if op.OpenOp? { OpenEffectJoin(p, op, quota, t'); } else { LinkEffectJoin(p, op, quota, t'); }
  }

  /** A whole call keeps the join exact if and only if its new id was fresh, or its
      own caps are bound to evict every record the used id leaves at odds. */
  lemma CallKeepsJoinExactly(s: FlowState, op: Op, quota: nat)
    requires Consistent(s) && Joined(s) && Public(op)
    ensures Joined(Apply(s, op, quota)) <==>
            LinkFresh(Prune(s, op.now), op) || OffendersEvicted(Prune(s, op.now), op, quota)
  {
    var p := Prune(s, op.now);
    PruneCarries(s, op.now);
    PruneKeepsJoin(s, op.now);
    if LinkFresh(p, op) {
      ApplyKeepsJoin(s, op, quota);
    } else {
      EffectExactly(p, op);
      hide Consistent, Joined, EnforceCaps, OffendersEvicted, Effect;
      EffectJoin(p, op, quota);
    }
  }

  // ---- a reused response id -----------------------------------------------------------

  /** `id` does not answer to `r` and cannot be linked again. */
  ghost predicate AliasLost(s: FlowState, id: Text, r: Text) {
    && (id in s.byId ==> s.byId[id].responseId.Some?)
    && (r in s.linkIndex ==> s.linkIndex[r] != id)
  }

  lemma LinksCome(s: FlowState, op: Op, quota: nat, r: Text)
    requires Consistent(s) && r in Apply(s, op, quota).linkIndex
    ensures var owner := Apply(s, op, quota).linkIndex[r];
            || (r in s.linkIndex && s.linkIndex[r] == owner)
            || (op.LinkOp? && owner == op.apiCallId && LinkProceeds(Prune(s, op.now), owner))
  {
    hide Consistent;
    if !(op.EditOp? && NothingToRecord(op.edit)) {
      var p := Prune(s, op.now);
      PruneCarries(s, op.now);
      EffectExactly(p, op);
      CapsCarry(Effect(p, op), quota);
    }
  }

  lemma {:induction false} LostAliasStaysLost(s: FlowState, ops: seq<Op>, quota: nat, id: Text, r: Text)
    requires Consistent(s) && AliasLost(s, id, r) && id != r
    requires forall i :: 0 <= i < |ops| ==> Public(ops[i]) && FlowHistories.DoesNotReopen(ops[i], id)
    ensures Resolve(Run(s, ops, quota), r) != Some(id)
    decreases |ops|
  {
    hide Consistent, Apply;
    if ops != [] {
      var next := Apply(s, ops[0], quota);
      ApplyStep(s, ops[0], quota);
      LossKept(s, ops[0], quota, id, r);
      LostAliasStaysLost(next, ops[1..], quota, id, r);
    }
  }

  lemma LossKept(s: FlowState, op: Op, quota: nat, id: Text, r: Text)
    requires Consistent(s) && AliasLost(s, id, r) && Public(op) && FlowHistories.DoesNotReopen(op, id)
    ensures AliasLost(Apply(s, op, quota), id, r)
  {
    var next := Apply(s, op, quota);
    PruneCarries(s, op.now);
    if r in next.linkIndex { LinksCome(s, op, quota, r); }
    if id in next.byId { FlowHistories.ApplyGrows(s, op, quota, id); }
    hide Consistent, Apply, Prune;
  }

  function Bare(id: Text): OpenArgs {
    OpenArgs(id, [], [], [], None, None, None)
  }

  /** Two flows are opened, both are linked to one response id, and the first expires
      before the second. */
  function Reuse(first: Text, second: Text, r: Text): seq<Op> {
    [OpenOp(0, Bare(first), 0), OpenOp(1, Bare(second), 1), LinkOp(r, first, 1), LinkOp(r, second, 1),
        ReadOp(FLOW_TTL_MS + 1)]
  }

  lemma {:induction false} NothingExpires(s: FlowState, ids: seq<Text>, now: nat)
    requires now <= FLOW_TTL_MS
    ensures Expired(s, ids, now) == []
  {
    if ids != [] { NothingExpires(s, ids[1..], now); }
  }

  /** While nothing expires and everything fits, a call is its effect. */
  lemma PlainCall(s: FlowState, op: Op, quota: nat)
    requires op.now <= FLOW_TTL_MS && (op.OpenOp? || op.LinkOp?)
    requires |Effect(s, op).order| <= FLOW_CAP && Effect(s, op).liveBytes <= quota
    ensures Apply(s, op, quota) == Effect(s, op)
  {
    NothingExpires(s, s.order, op.now);
  }

  function BareRecord(cell: CellId, id: Text, now: nat, mark: nat, link: Option<Text>): FlowRecord {
    NewRecord(cell, Bare(id), now).(recordSeq := mark, responseId := link)
  }

  lemma BareFacts(cell: CellId, id: Text, now: nat, mark: nat, link: Option<Text>)
    requires |id| == 1 && (link.Some? ==> |link.value| == 1)
    ensures var r := BareRecord(cell, id, now, mark, link);
            && SummaryBytes(r) == (if link.Some? then 2 else 1)
            && r.startedMs == now && r.responseId == link
  {
  }

  lemma OpenBare(s: FlowState, cell: CellId, id: Text, now: nat, quota: nat)
    requires |id| == 1 && id !in s.byId && now <= FLOW_TTL_MS && |s.order| < FLOW_CAP && s.liveBytes < quota
    ensures Apply(s, OpenOp(cell, Bare(id), now), quota)
         == FlowState(s.byId[id := BareRecord(cell, id, now, s.cursor + 1, None)], s.order + [id], s.linkIndex,
             s.liveBytes + 1, s.cursor + 1)
  {
    var op := OpenOp(cell, Bare(id), now);
    BareFacts(cell, id, now, s.cursor + 1, None);
    assert NewRecord(cell, Bare(id), now).(recordSeq := s.cursor + 1) == BareRecord(cell, id, now, s.cursor + 1, None);
    assert CapScalar(op.args.apiCallId) == id;
    hide BareRecord, NewRecord, SummaryBytes, CapScalar;
    PlainCall(s, op, quota);
    hide Apply;
  }

  lemma LinkedBareRecord(cell: CellId, id: Text, r: Text, was: nat, started: nat, mark: nat)
    ensures ApplyEdit(LinkEdit(r), BareRecord(cell, id, started, was, None)).(recordSeq := mark)
         == BareRecord(cell, id, started, mark, Some(r))
  {
  }

  lemma LinkBareEffect(s: FlowState, cell: CellId, id: Text, r: Text, was: nat, started: nat, now: nat)
    requires |id| == 1 && |r| == 1 && id in s.byId && s.byId[id] == BareRecord(cell, id, started, was, None)
        && s.liveBytes > 0
    ensures Effect(s, LinkOp(r, id, now))
         == FlowState(s.byId[id := BareRecord(cell, id, started, s.cursor + 1, Some(r))], s.order, s.linkIndex[r := id],
                      s.liveBytes + 1, s.cursor + 1)
  {
    BareFacts(cell, id, started, was, None);
    BareFacts(cell, id, started, s.cursor + 1, Some(r));
    LinkedBareRecord(cell, id, r, was, started, s.cursor + 1);
    StampingIsFree(ApplyEdit(LinkEdit(r), s.byId[id]), s.cursor + 1);
    assert CapScalar(r) == r;
    hide BareRecord, ApplyEdit, SummaryBytes, CapScalar;
  }

  lemma LinkBare(s: FlowState, cell: CellId, id: Text, r: Text, was: nat, started: nat, now: nat, quota: nat)
    requires |id| == 1 && |r| == 1 && id in s.byId && s.byId[id] == BareRecord(cell, id, started, was, None)
    requires now <= FLOW_TTL_MS && |s.order| <= FLOW_CAP && 0 < s.liveBytes < quota
    ensures Apply(s, LinkOp(r, id, now), quota)
         == FlowState(s.byId[id := BareRecord(cell, id, started, s.cursor + 1, Some(r))], s.order, s.linkIndex[r := id],
                      s.liveBytes + 1, s.cursor + 1)
  {
    LinkBareEffect(s, cell, id, r, was, started, now);
    hide BareRecord, Effect, CapScalar;
    PlainCall(s, LinkOp(r, id, now), quota);
    hide Apply;
  }

  /** Pruning the first of two records when it alone is too old. */
  lemma FirstExpires(s: FlowState, first: Text, second: Text, now: nat, quota: nat)
    requires first != second && s.order == [first, second] && first in s.byId && second in s.byId
    requires s.byId[first].startedMs < SatSub(now, FLOW_TTL_MS) <= s.byId[second].startedMs
    ensures Apply(s, ReadOp(now), quota) == Remove(s, first)
  {
    OnlyFirstExpired(s, first, second, now);
    hide Remove, Expired;
    assert [first][1..] == [];
    assert RemoveAll(s, [first]) == RemoveAll(Remove(s, first), []);
  }

  lemma OnlyFirstExpired(s: FlowState, first: Text, second: Text, now: nat)
    requires first in s.byId && second in s.byId
    requires s.byId[first].startedMs < SatSub(now, FLOW_TTL_MS) <= s.byId[second].startedMs
    ensures Expired(s, [first, second], now) == [first]
  {
    assert [first, second][1..] == [second] && [second][1..] == [];
    assert Expired(s, [second], now) == [];
  }

  lemma RunOfFive(s: FlowState, ops: seq<Op>, quota: nat)
    requires |ops| == 5
    ensures var s2 := Apply(Apply(s, ops[0], quota), ops[1], quota);
            Run(s, ops, quota) == Apply(Apply(Apply(s2, ops[2], quota), ops[3], quota), ops[4], quota)
  {
    hide Apply;
    var s1 := Apply(s, ops[0], quota);
    var s2 := Apply(s1, ops[1], quota);
    var s3 := Apply(s2, ops[2], quota);
    var s4 := Apply(s3, ops[3], quota);
    assert ops[1..][1..] == ops[2..] && ops[2..][1..] == ops[3..] && ops[3..][1..] == ops[4..] && ops[4..][1..] == [];
    assert Run(s4, ops[4..], quota) == Apply(s4, ops[4], quota);
    assert Run(s3, ops[3..], quota) == Run(s4, ops[4..], quota);
    assert Run(s2, ops[2..], quota) == Run(s3, ops[3..], quota);
    assert Run(s1, ops[1..], quota) == Run(s2, ops[2..], quota);
  }

  /** Both flows opened, in order. */
  ghost predicate BothOpen(s: FlowState, first: Text, second: Text) {
    && s.byId == map[first := BareRecord(0, first, 0, 1, None), second := BareRecord(1, second, 1, 2, None)]
    && s.order == [first, second] && s.linkIndex == map[] && s.liveBytes == 2 && s.cursor == 2
  }

  /** Both flows linked to `r`, the second last. */
  ghost predicate BothLinked(s: FlowState, first: Text, second: Text, r: Text) {
    && s.byId == map[first := BareRecord(0, first, 0, 3, Some(r)), second := BareRecord(1, second, 1, 4, Some(r))]
    && s.order == [first, second] && s.linkIndex == map[r := second]
  }

  lemma ReuseOpens(first: Text, second: Text, r: Text, quota: nat)
    requires |first| == |second| == 1 && first != second && quota >= 4
    ensures var ops := Reuse(first, second, r);
            BothOpen(Apply(Apply(EMPTY, ops[0], quota), ops[1], quota), first, second)
  {
    hide Apply, BareRecord;
    OpenBare(EMPTY, 0, first, 0, quota);
    OpenBare(Apply(EMPTY, OpenOp(0, Bare(first), 0), quota), 1, second, 1, quota);
  }

  lemma ReuseLinks(s: FlowState, first: Text, second: Text, r: Text, quota: nat)
    requires |first| == |second| == |r| == 1 && first != second && quota >= 4 && BothOpen(s, first, second)
    ensures var ops := Reuse(first, second, r);
            BothLinked(Apply(Apply(s, ops[2], quota), ops[3], quota), first, second, r)
  {
    hide Apply, BareRecord;
    LinkBare(s, 0, first, r, 1, 0, 1, quota);
    LinkBare(Apply(s, LinkOp(r, first, 1), quota), 1, second, r, 2, 1, 1, quota);
  }

  lemma ReuseExpires(s: FlowState, first: Text, second: Text, r: Text, quota: nat)
    requires |first| == |second| == |r| == 1 && first != second && BothLinked(s, first, second, r)
    ensures var s' := Apply(s, Reuse(first, second, r)[4], quota);
            second in s'.byId && s'.byId[second].responseId == Some(r) && s'.byId.Keys == {second}
                && s'.linkIndex == map[]
  {
    BareFacts(0, first, 0, 3, Some(r));
    BareFacts(1, second, 1, 4, Some(r));
    hide Apply, BareRecord;
    FirstExpires(s, first, second, FLOW_TTL_MS + 1, quota);
  }

  /** Reusing a response id costs the second flow its alias, on a run of public calls
      from the empty store: the second flow is live and carries the id, the id leads
      nowhere, and unless the flow is opened anew it never leads there again. */
  lemma ReusedResponseIdLosesItsAlias(first: Text, second: Text, r: Text, quota: nat, later: seq<Op>)
    requires |first| == |second| == |r| == 1 && first != second && r != second && quota >= 4
    requires forall i :: 0 <= i < |later| ==> Public(later[i]) && FlowHistories.DoesNotReopen(later[i], second)
    ensures var s := Run(EMPTY, Reuse(first, second, r), quota);
            && second in s.byId && s.byId[second].responseId == Some(r) && Resolve(s, r) == None
            && Resolve(Run(s, later, quota), r) != Some(second)
  {
    var ops := Reuse(first, second, r);
    var s := ReuseRun(first, second, r, quota);
    EmptyStoreIsConsistent(quota);
    EveryRunIsConsistent(EMPTY, ops, quota);
    hide Consistent, Run, Reuse;
    LostAliasStaysLost(s, later, quota, second, r);
  }

  lemma ReuseRun(first: Text, second: Text, r: Text, quota: nat) returns (s: FlowState)
    requires |first| == |second| == |r| == 1 && first != second && quota >= 4
    ensures s == Run(EMPTY, Reuse(first, second, r), quota)
    ensures s.byId.Keys == {second} && s.byId[second].responseId == Some(r) && s.linkIndex == map[]
  {
    var ops := Reuse(first, second, r);
    var s1 := Apply(EMPTY, ops[0], quota);
    var s2 := Apply(s1, ops[1], quota);
    var s3 := Apply(s2, ops[2], quota);
    var s4 := Apply(s3, ops[3], quota);
    s := Apply(s4, ops[4], quota);
    hide Apply, Run, BothOpen, BothLinked;
    RunOfFive(EMPTY, ops, quota);
    ReuseOpens(first, second, r, quota);
    ReuseLinks(s2, first, second, r, quota);
    ReuseExpires(s4, first, second, r, quota);
    hide Reuse;
  }
}
