/** The store's public operations as atomic steps on its state, and what holds
    over every run of them. */
module FlowStores {
  import opened Base
  import opened ScalarCap
  import opened FlowRecords
  import opened FlowStates

  /** One locked call. `now` is the clock reading of that call and may go
      backwards between calls. Every reading operation is a `Read`: under the
      lock it only prunes. */
  datatype Op =
    | OpenOp(cell: CellId, args: OpenArgs, now: nat)
    | LinkOp(responseId: Text, apiCallId: Text, now: nat)
    | EditOp(id: Text, edit: Edit, now: nat)
    | ReadOp(now: nat)

  /** `record_attempts` with nothing to record returns before taking the lock. */
  predicate NothingToRecord(e: Edit) {
    e.AttemptsEdit? && e.attempts == [] && e.firstByte.None?
  }

  predicate LinkProceeds(p: FlowState, apiCallId: Text) {
    apiCallId in p.byId && p.byId[apiCallId].responseId.None?
  }

  /** The operation's own effect on the pruned state, before any cap. */
  function Effect(p: FlowState, op: Op): FlowState {
    match op
    case OpenOp(cell, args, now) => Insert(p, CapScalar(args.apiCallId), NewRecord(cell, args, now))
    case LinkOp(responseId, apiCallId, _) =>
      if LinkProceeds(p, apiCallId)
      then Update(p.(linkIndex := p.linkIndex[CapScalar(responseId) := apiCallId]), apiCallId,
          LinkEdit(CapScalar(responseId)))
      else p
    case EditOp(id, e, _) => Update(p, id, e)
    case ReadOp(_) => p
  }

  /** The operations that return without enforcing the caps. */
  predicate LeavesCaps(p: FlowState, op: Op) {
    match op
    case OpenOp(_, _, _) => false
    case LinkOp(_, apiCallId, _) => !LinkProceeds(p, apiCallId)
    case EditOp(_, e, _) => e.SkipsCaps()
    case ReadOp(_) => true
  }

  function Apply(s: FlowState, op: Op, quota: nat): FlowState {
    if op.EditOp? && NothingToRecord(op.edit) then s
    else
      var p := Prune(s, op.now);
      if LeavesCaps(p, op) then Effect(p, op) else EnforceCaps(Effect(p, op), quota)
  }

  function Run(s: FlowState, ops: seq<Op>, quota: nat): FlowState
    decreases |ops|
  {
    if ops == [] then s else Run(Apply(s, ops[0], quota), ops[1..], quota)
  }

  // ---- what the caps may do to a record ------------------------------------

  /** A record that outlived an operation is unchanged or has lost its bodies. */
  predicate Carried(was: FlowRecord, now: FlowRecord) {
    now == was || now == Shed(was)
  }

  lemma CapsCarry(s: FlowState, quota: nat)
    requires Consistent(s)
    ensures var s' := EnforceCaps(s, quota);
            && s.cursor <= s'.cursor
            && (forall id :: id in s'.byId ==> id in s.byId && Carried(s.byId[id], s'.byId[id]))
            && (forall r :: r in s'.linkIndex ==> r in s.linkIndex && s'.linkIndex[r] == s.linkIndex[r])
  {
    var counted := DropToCount(s);
    var dropped := s.order[..SatSub(|s.order|, FLOW_CAP)];
    DropToCountStops(s);
    PrefixNoDup(s.order, |dropped|);
    RemoveAllMeaning(s, dropped);
    var k, n := QuotaIsMetMinimally(counted, quota);
  }

  lemma PruneCarries(s: FlowState, now: nat)
    requires Consistent(s)
    ensures var s' := Prune(s, now);
            && Consistent(s') && s.cursor <= s'.cursor
            && s'.liveBytes <= s.liveBytes && |s'.order| <= |s.order|
            && (forall id :: id in s'.byId ==> id in s.byId && s'.byId[id] == s.byId[id])
            && (forall r :: r in s'.linkIndex ==> r in s.linkIndex && s'.linkIndex[r] == s.linkIndex[r])
  {
    PruneMeaning(s, now);
  }

  // ---- every operation, record by record -----------------------------------

  /** The live id an operation mutates in the pruned state, if any. */
  function Hit(p: FlowState, op: Op): Option<Text> {
    match op
    case OpenOp(_, args, _) => Some(CapScalar(args.apiCallId))
    case LinkOp(_, apiCallId, _) => if LinkProceeds(p, apiCallId) then Some(apiCallId) else None
    case EditOp(id, e, _) =>
      var hit := Resolve(p, id);
      if hit.Some? && hit.value in p.byId then hit else None
    case ReadOp(_) => None
  }

  function EditOf(op: Op): Edit
    requires op.LinkOp? || op.EditOp?
  {
    if op.LinkOp? then LinkEdit(CapScalar(op.responseId)) else op.edit
  }

  /** The version of the record it hits that the operation writes. */
  function Version(p: FlowState, op: Op): FlowRecord
    requires Hit(p, op).Some?
  {
    var content := if op.OpenOp? then NewRecord(op.cell, op.args, op.now)
                   else ApplyEdit(EditOf(op), p.byId[Hit(p, op).value]);
    content.(recordSeq := p.cursor + 1)
  }

  function Target(s: FlowState, op: Op): Option<Text> {
    if op.EditOp? && NothingToRecord(op.edit) then None else Hit(Prune(s, op.now), op)
  }

  function Written(s: FlowState, op: Op): FlowRecord
    requires Target(s, op).Some?
  {
    Version(Prune(s, op.now), op)
  }

  /** What the effect leaves of record `id`. */
  ghost predicate ExactStepOf(p: FlowState, op: Op, t: FlowState, id: Text)
    requires id in t.byId
  {
    if Hit(p, op) == Some(id) then t.byId[id] == Version(p, op)
    else id in p.byId && t.byId[id] == p.byId[id]
  }

  ghost predicate ExactStep(p: FlowState, op: Op, t: FlowState) {
    && Consistent(t) && p.cursor <= t.cursor
    && forall id :: id in t.byId ==> ExactStepOf(p, op, t, id)
  }

  /** What one whole operation leaves of record `id`. */
  ghost predicate StepOf(s: FlowState, op: Op, s': FlowState, id: Text)
    requires id in s'.byId
  {
    if Target(s, op) == Some(id)
    then Carried(Written(s, op), s'.byId[id]) && s.cursor < s'.byId[id].recordSeq
    else id in s.byId && Carried(s.byId[id], s'.byId[id])
  }

  lemma OpenExactly(p: FlowState, op: Op)
    requires Consistent(p) && op.OpenOp?
    ensures ExactStep(p, op, Effect(p, op))
  {
    hide Consistent;
    var key := CapScalar(op.args.apiCallId);
    var record := NewRecord(op.cell, op.args, op.now);
    InsertConsistent(p, key, record);
    assert Effect(p, op).byId == WithoutHolder(p, key).byId[key := Version(p, op)];
  }

  lemma EditExactly(p: FlowState, op: Op)
    requires Consistent(p) && op.EditOp?
    ensures ExactStep(p, op, Effect(p, op))
  {
    hide Consistent;
    var hit := Hit(p, op);
    if hit.Some? {
      EditConsistent(p, hit.value, op.edit);
    }
  }

  lemma IndexingKeepsConsistent(p: FlowState, responseId: Text, apiCallId: Text)
    requires Consistent(p) && apiCallId in p.byId
    ensures Consistent(p.(linkIndex := p.linkIndex[responseId := apiCallId]))
  {
  }

  lemma LinkExactly(p: FlowState, op: Op)
    requires Consistent(p) && op.LinkOp?
    ensures ExactStep(p, op, Effect(p, op))
  {
    hide Consistent;
    if LinkProceeds(p, op.apiCallId) {
      var linked := p.(linkIndex := p.linkIndex[CapScalar(op.responseId) := op.apiCallId]);
      IndexingKeepsConsistent(p, CapScalar(op.responseId), op.apiCallId);
      EditConsistent(linked, op.apiCallId, EditOf(op));
    }
  }

  lemma EffectExactly(p: FlowState, op: Op)
    requires Consistent(p)
    ensures ExactStep(p, op, Effect(p, op))
  {
    match op
    case OpenOp(_, _, _) => OpenExactly(p, op);
    case LinkOp(_, _, _) => LinkExactly(p, op);
    case EditOp(_, _, _) => EditExactly(p, op);
    case ReadOp(_) =>
  }

  lemma CapsKeepSteps(p: FlowState, op: Op, t: FlowState, t': FlowState, quota: nat)
    requires ExactStep(p, op, t) && (t' == t || t' == EnforceCaps(t, quota))
    ensures Consistent(t') && p.cursor <= t'.cursor
    ensures forall id :: id in t'.byId ==> id in t.byId && ExactStepOf(p, op, t, id) && Carried(t.byId[id], t'.byId[id])
  {
    hide Consistent;
    CapsBound(t, quota);
    CapsCarry(t, quota);
  }

  /** Every operation keeps the four structures in agreement; the record it
      targets gets a watermark above everything before it, and every other
      surviving record is untouched except for bodies shed by the quota. */
  lemma ApplyStep(s: FlowState, op: Op, quota: nat)
    requires Consistent(s)
    ensures Consistent(Apply(s, op, quota)) && s.cursor <= Apply(s, op, quota).cursor
    ensures forall id :: id in Apply(s, op, quota).byId ==> StepOf(s, op, Apply(s, op, quota), id)
  {
    hide Consistent;
    if !(op.EditOp? && NothingToRecord(op.edit)) {
      var p := Prune(s, op.now);
      var t := Effect(p, op);
      var t' := Apply(s, op, quota);
      PruneCarries(s, op.now);
      EffectExactly(p, op);
      CapsKeepSteps(p, op, t, t', quota);
      forall id | id in t'.byId ensures StepOf(s, op, t', id) {
        assert ExactStepOf(p, op, t, id) && Carried(t.byId[id], t'.byId[id]);
      }
    }
  }

  // ---- hard bounds ---------------------------------------------------------

  ghost predicate InBounds(s: FlowState, quota: nat) {
    s.liveBytes <= quota && |s.order| <= FLOW_CAP
  }

  /** The effects that leave the caps to a later call charge nothing. */
  lemma UncappedEffectIsFree(p: FlowState, op: Op)
    requires Consistent(p) && LeavesCaps(p, op)
    ensures Effect(p, op).liveBytes == p.liveBytes && Effect(p, op).order == p.order
  {
    if op.EditOp? { UpdateConsistent(p, op.id, op.edit); }
  }

  /** The bounds hold after every operation, including those that skip the caps. */
  lemma ApplyInBounds(s: FlowState, op: Op, quota: nat)
    requires Consistent(s) && InBounds(s, quota)
    ensures InBounds(Apply(s, op, quota), quota)
  {
    var p := Prune(s, op.now);
    PruneCarries(s, op.now);
    if LeavesCaps(p, op) {
      UncappedEffectIsFree(p, op);
    } else {
      EffectExactly(p, op);
      CapsBound(Effect(p, op), quota);
    }
  }

  /** Over every run from the empty store: the structures agree, the byte total
      is exact, and neither bound is ever exceeded. */
  lemma {:induction false} EveryRunIsConsistent(s: FlowState, ops: seq<Op>, quota: nat)
    requires Consistent(s) && InBounds(s, quota)
    ensures Consistent(Run(s, ops, quota)) && InBounds(Run(s, ops, quota), quota)
    decreases |ops|
  {
    if ops != [] {
      ApplyStep(s, ops[0], quota);
      ApplyInBounds(s, ops[0], quota);
      EveryRunIsConsistent(Apply(s, ops[0], quota), ops[1..], quota);
    }
  }

  lemma EmptyStoreIsConsistent(quota: nat)
    ensures Consistent(EMPTY) && InBounds(EMPTY, quota)
  {
  }

  // ---- watermarks ----------------------------------------------------------

  /** `s'` is a later state than `s`: each record it holds was mutated since, with
      a watermark above the cursor of `s`, or is the same flow unchanged but for
      shed bodies. */
  ghost predicate Later(s: FlowState, s': FlowState) {
    && s.cursor <= s'.cursor
    && forall id :: id in s'.byId && s'.byId[id].recordSeq <= s.cursor ==>
         id in s.byId && Carried(s.byId[id], s'.byId[id])
  }

  lemma ApplyIsLater(s: FlowState, op: Op, quota: nat)
    requires Consistent(s)
    ensures Later(s, Apply(s, op, quota))
  {
    hide Consistent;
    ApplyStep(s, op, quota);
    var s' := Apply(s, op, quota);
    forall id | id in s'.byId && s'.byId[id].recordSeq <= s.cursor
      ensures id in s.byId && Carried(s.byId[id], s'.byId[id])
    {
      assert StepOf(s, op, s', id);
    }
  }

  lemma LaterIsTransitive(a: FlowState, b: FlowState, c: FlowState)
    requires Later(a, b) && Later(b, c)
    ensures Later(a, c)
  {
    forall id | id in c.byId && c.byId[id].recordSeq <= a.cursor
      ensures id in a.byId && Carried(a.byId[id], c.byId[id])
    {
      assert Carried(b.byId[id], c.byId[id]);
      ShedFreesBodies(b.byId[id]);
      ShedFreesBodies(a.byId[id]);
    }
  }

  lemma {:induction false} RunIsLater(s: FlowState, ops: seq<Op>, quota: nat)
    requires Consistent(s)
    ensures Consistent(Run(s, ops, quota)) && Later(s, Run(s, ops, quota))
    decreases |ops|
  {
    hide Consistent;
    if ops != [] {
      var mid := Apply(s, ops[0], quota);
      ApplyStep(s, ops[0], quota);
      ApplyIsLater(s, ops[0], quota);
      RunIsLater(mid, ops[1..], quota);
      LaterIsTransitive(s, mid, Run(s, ops, quota));
    }
  }

  /** A watermark names a version: if a live record shows the same watermark at
      two moments of a run, its summary and its claim cell are the same at both,
      even when the quota took its bodies in between. */
  lemma WatermarkNamesVersion(s: FlowState, ops: seq<Op>, quota: nat, id: Text)
    requires Consistent(s) && id in s.byId && id in Run(s, ops, quota).byId
    requires Run(s, ops, quota).byId[id].recordSeq == s.byId[id].recordSeq
    ensures SummaryOf(Run(s, ops, quota).byId[id]) == SummaryOf(s.byId[id])
    ensures Run(s, ops, quota).byId[id].claim == s.byId[id].claim
  {
    assert s.byId[id].recordSeq <= s.cursor;
    hide Consistent;
    RunIsLater(s, ops, quota);
    ShedFreesBodies(s.byId[id]);
  }

  /** The summaries of the live records, newest first. */
  function Summaries(s: FlowState, ids: seq<Text>): seq<FlowSummary> {
    if ids == [] then []
    else (if ids[|ids| - 1] in s.byId then [SummaryOf(s.byId[ids[|ids| - 1]])] else [])
         + Summaries(s, ids[..|ids| - 1])
  }

  lemma {:induction false} SummariesContain(s: FlowState, ids: seq<Text>, id: Text)
    requires id in ids && id in s.byId
    ensures SummaryOf(s.byId[id]) in Summaries(s, ids)
    decreases |ids|
  {
    if ids[|ids| - 1] != id {
      assert id in ids[..|ids| - 1];
      SummariesContain(s, ids[..|ids| - 1], id);
    }
  }

  /** In a consistent state a snapshot lists every live record once, newest first. */
  lemma {:induction false} SummariesNewestFirst(s: FlowState, ids: seq<Text>, i: nat)
    requires forall id :: id in ids ==> id in s.byId
    ensures |Summaries(s, ids)| == |ids|
    ensures i < |ids| ==> Summaries(s, ids)[i] == SummaryOf(s.byId[ids[|ids| - 1 - i]])
    decreases |ids|
  {
    if ids != [] { SummariesNewestFirst(s, ids[..|ids| - 1], if i == 0 then 0 else i - 1); }
  }

  /** A snapshot and its cursor taken under one lock are a sound baseline: any
      record live at any later time either carries a watermark above the cursor,
      or its summary is already in the snapshot word for word. */
  lemma SnapshotBaselineIsSound(s: FlowState, now: nat, ops: seq<Op>, quota: nat, id: Text)
    requires Consistent(s)
    requires id in Run(Prune(s, now), ops, quota).byId
    ensures var cut := Prune(s, now);
            var later := Run(cut, ops, quota).byId[id];
            later.recordSeq > cut.cursor || SummaryOf(later) in Summaries(cut, cut.order)
  {
    var cut := Prune(s, now);
    var end := Run(cut, ops, quota);
    PruneCarries(s, now);
    assert forall id :: id in cut.byId ==> id in cut.order;
    hide Consistent;
    RunIsLater(cut, ops, quota);
    if end.byId[id].recordSeq <= cut.cursor {
      ShedFreesBodies(cut.byId[id]);
      SummariesContain(cut, cut.order, id);
    }
  }

  /** A record's watermark rises exactly when an operation mutates that record. */
  lemma WatermarkRisesOnlyOnOwnMutation(s: FlowState, op: Op, quota: nat, id: Text)
    requires Consistent(s) && id in s.byId && id in Apply(s, op, quota).byId
    ensures Apply(s, op, quota).byId[id].recordSeq >= s.byId[id].recordSeq
    ensures Apply(s, op, quota).byId[id].recordSeq > s.byId[id].recordSeq <==> Target(s, op) == Some(id)
  {
    ApplyStep(s, op, quota);
    assert StepOf(s, op, Apply(s, op, quota), id);
  }
}
