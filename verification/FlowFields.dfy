/** What a live record shows, field by field, from the calls of a run alone: what the
    calls that reached it reported, and which of its bodies the quota has taken. */
module FlowFields {
  import opened Base
  import opened ScalarCap
  import PhaseClock
  import opened FlowRecords
  import opened FlowStates
  import opened FlowStores
  import opened LinkJoin
  import opened FlowHistories

  // ---- what a call reports -------------------------------------------------------

  function UsageIn(op: Op): Option<FlowUsage> {
    if op.EditOp? && op.edit.UsageEdit? then Some(op.edit.usage) else None
  }

  function ModelServedIn(op: Op): Option<Text> {
    if op.EditOp? && op.edit.UpstreamEdit? then op.edit.model else None
  }

  function LeafTargetIn(op: Op): Option<Text> {
    if op.EditOp? && op.edit.UpstreamEdit? then op.edit.target else None
  }

  function ModelRequestedIn(op: Op): Option<Text> {
    if op.EditOp? && op.edit.NormalizedEdit? then op.edit.model else None
  }

  function StatusIn(op: Op): Option<FlowStatus> {
    if op.EditOp? && op.edit.FinalizeEdit? then Some(op.edit.status) else None
  }

  function FinishedIn(op: Op): Option<nat> {
    if op.EditOp? && op.edit.FinalizeEdit? then Some(op.edit.now) else None
  }

  function ElapsedIn(op: Op): Option<nat> {
    if op.EditOp? && op.edit.FinalizeEdit? then Some(op.edit.elapsed) else None
  }

  function ReasonIn(op: Op): Option<Text> {
    if op.EditOp? && op.edit.FinalizeEdit? then op.edit.reason else None
  }

  function ProviderIn(op: Op): Option<Text> {
    if op.EditOp? && op.edit.FinalizeEdit? then op.edit.provider else None
  }

  function AttemptsIn(op: Op): Option<seq<Attempt>> {
    if op.EditOp? && op.edit.AttemptsEdit? && op.edit.attempts != [] then Some(op.edit.attempts) else None
  }

  function FirstByteIn(op: Op): Option<nat> {
    if op.EditOp? && op.edit.AttemptsEdit? then op.edit.firstByte else None
  }

  function LinkIn(op: Op): Option<Text> {
    if op.LinkOp? then Some(CapScalar(op.responseId)) else None
  }

  function InboundIn(op: Op): Option<Text> {
    if op.OpenOp? then op.args.inboundBody else None
  }

  function NormalizedIn(op: Op): Option<Text> {
    if op.EditOp? && op.edit.NormalizedEdit? then op.edit.body else None
  }

  function UpstreamBodyIn(op: Op): Option<Text> {
    if op.EditOp? && op.edit.UpstreamEdit? then op.edit.body else None
  }

  function ResponseIn(op: Op): Option<ResponseBody> {
    if op.EditOp? && op.edit.ResponseEdit? then Some(op.edit.response) else None
  }

  // ---- the fields and the calls ----------------------------------------------------

  /** The fields that are written once, by the call that opens the flow. */
  ghost predicate OpenedBy(r: FlowRecord, op: Op) {
    && op.OpenOp? && r.claim == op.cell && r.startedMs == op.now
    && r.apiCallId == CapScalar(op.args.apiCallId) && r.httpMethod == CapScalar(op.args.httpMethod)
    && r.uri == CapScalar(op.args.uri) && r.headers == op.args.headers
    && (if op.args.clientLabel.Some? then r.clientLabel == Some(CapScalar(op.args.clientLabel.value))
        else r.clientLabel == None)
    && r.clientSource == op.args.clientSource
  }

  /** The fields the later calls report. */
  ghost predicate ReportedBy(r: FlowRecord, calls: seq<Op>) {
    && r.usage == LastSet(calls, UsageIn)
    && r.modelServed == LastSet(calls, ModelServedIn)
    && r.modelRequested == LastSet(calls, ModelRequestedIn)
    && r.finishedMs == LastSet(calls, FinishedIn)
    && r.elapsedMs == LastSet(calls, ElapsedIn)
    && r.terminalReason == LastSet(calls, ReasonIn)
    && r.status == (if LastSet(calls, StatusIn).Some? then LastSet(calls, StatusIn).value else Open)
    && r.attempts == (if LastSet(calls, AttemptsIn).Some? then LastSet(calls, AttemptsIn).value else [])
    && r.firstUpstreamByteMs == FirstSet(calls, FirstByteIn)
    && r.responseId == FirstSet(calls, LinkIn)
    && r.upstreamTarget == Or(LastSet(calls, LeafTargetIn), FirstSet(calls, ProviderIn))
  }

  /** The four bodies, from the calls since they were last taken. */
  ghost predicate BodiesBy(r: FlowRecord, calls: seq<Op>) {
    && r.inboundBody == LastSet(calls, InboundIn)
    && r.normalized == LastSet(calls, NormalizedIn)
    && r.upstreamBody == LastSet(calls, UpstreamBodyIn)
    && r.upstreamResponse == LastSet(calls, ResponseIn)
  }

  lemma OpeningReports(op: Op, mark: nat)
    requires op.OpenOp?
    ensures var r := NewRecord(op.cell, op.args, op.now).(recordSeq := mark);
            OpenedBy(r, op) && ReportedBy(r, [op]) && BodiesBy(r, [op])
  {
    assert [op][..0] == [];
  }

  lemma OneMore<T>(calls: seq<Op>, op: Op, f: Op -> Option<T>)
    ensures LastSet(calls + [op], f) == Or(f(op), LastSet(calls, f))
    ensures FirstSet(calls + [op], f) == Or(FirstSet(calls, f), f(op))
  {
    assert (calls + [op])[..|calls|] == calls;
  }

  /** What one call reports, added to what was reported before. */
  ghost predicate Adds(r: FlowRecord, op: Op, r': FlowRecord) {
    AddsOutcome(r, op, r') && AddsService(r, op, r')
  }

  ghost predicate AddsOutcome(r: FlowRecord, op: Op, r': FlowRecord) {
    && r'.finishedMs == Or(FinishedIn(op), r.finishedMs)
    && r'.elapsedMs == Or(ElapsedIn(op), r.elapsedMs)
    && r'.terminalReason == Or(ReasonIn(op), r.terminalReason)
    && r'.status == (if StatusIn(op).Some? then StatusIn(op).value else r.status)
    && r'.usage == Or(UsageIn(op), r.usage)
  }

  ghost predicate AddsService(r: FlowRecord, op: Op, r': FlowRecord) {
    && r'.modelServed == Or(ModelServedIn(op), r.modelServed)
    && r'.modelRequested == Or(ModelRequestedIn(op), r.modelRequested)
    && r'.attempts == (if AttemptsIn(op).Some? then AttemptsIn(op).value else r.attempts)
    && r'.firstUpstreamByteMs == Or(r.firstUpstreamByteMs, FirstByteIn(op))
    && r'.responseId == Or(r.responseId, LinkIn(op))
    && r'.upstreamTarget == Or(LeafTargetIn(op), Or(r.upstreamTarget, ProviderIn(op)))
  }

  lemma CallAddsOutcome(r: FlowRecord, op: Op)
    requires op.LinkOp? || op.EditOp?
    ensures AddsOutcome(r, op, ApplyEdit(EditOf(op), r))
  {
    hide CapScalar;
  }

  lemma CallAddsService(r: FlowRecord, op: Op)
    requires (op.LinkOp? || op.EditOp?) && Public(op) && (op.LinkOp? ==> r.responseId.None?)
    ensures AddsService(r, op, ApplyEdit(EditOf(op), r))
  {
    hide CapScalar;
  }

  /** A call adds what its arguments say and leaves every other field as it was. */
  lemma CallAdds(r: FlowRecord, op: Op, mark: nat)
    requires (op.LinkOp? || op.EditOp?) && Public(op) && (op.LinkOp? ==> r.responseId.None?)
    ensures Adds(r, op, ApplyEdit(EditOf(op), r).(recordSeq := mark))
  {
    CallAddsOutcome(r, op);
    CallAddsService(r, op);
    hide ApplyEdit, EditOf, Public;
  }

  lemma AddedReports(r: FlowRecord, calls: seq<Op>, op: Op, r': FlowRecord)
    requires ReportedBy(r, calls) && Adds(r, op, r') && (LeafTargetIn(op).None? || ProviderIn(op).None?)
    ensures ReportedBy(r', calls + [op])
  {
    OneMore(calls, op, UsageIn);
    OneMore(calls, op, ModelServedIn);
    OneMore(calls, op, ModelRequestedIn);
    OneMore(calls, op, FinishedIn);
    OneMore(calls, op, ElapsedIn);
    OneMore(calls, op, ReasonIn);
    OneMore(calls, op, StatusIn);
    OneMore(calls, op, AttemptsIn);
    OneMore(calls, op, FirstByteIn);
    OneMore(calls, op, LinkIn);
    OneMore(calls, op, LeafTargetIn);
    OneMore(calls, op, ProviderIn);
    hide LastSet, FirstSet, UsageIn, ModelServedIn, ModelRequestedIn, FinishedIn, ElapsedIn, ReasonIn, StatusIn,
      AttemptsIn, FirstByteIn, LinkIn, LeafTargetIn, ProviderIn;
  }

  /** One call more. */
  lemma CallReports(r: FlowRecord, calls: seq<Op>, op: Op, mark: nat)
    requires ReportedBy(r, calls) && (op.LinkOp? || op.EditOp?) && Public(op) && (op.LinkOp? ==> r.responseId.None?)
    ensures ReportedBy(ApplyEdit(EditOf(op), r).(recordSeq := mark), calls + [op])
  {
    CallAdds(r, op, mark);
    hide ReportedBy, Adds, ApplyEdit, EditOf;
    AddedReports(r, calls, op, ApplyEdit(EditOf(op), r).(recordSeq := mark));
  }

  lemma CallFillsBodies(r: FlowRecord, op: Op)
    requires op.LinkOp? || op.EditOp?
    ensures var r' := ApplyEdit(EditOf(op), r);
            && r'.inboundBody == Or(InboundIn(op), r.inboundBody) && r'.normalized == Or(NormalizedIn(op), r.normalized)
            && r'.upstreamBody == Or(UpstreamBodyIn(op), r.upstreamBody)
            && r'.upstreamResponse == Or(ResponseIn(op), r.upstreamResponse)
  {
    hide CapScalar;
  }

  lemma CallFills(r: FlowRecord, calls: seq<Op>, op: Op, mark: nat)
    requires BodiesBy(r, calls) && (op.LinkOp? || op.EditOp?)
    ensures BodiesBy(ApplyEdit(EditOf(op), r).(recordSeq := mark), calls + [op])
  {
    CallFillsBodies(r, op);
    OneMore(calls, op, InboundIn);
    OneMore(calls, op, NormalizedIn);
    OneMore(calls, op, UpstreamBodyIn);
    OneMore(calls, op, ResponseIn);
    hide ApplyEdit, EditOf, LastSet, FirstSet, InboundIn, NormalizedIn, UpstreamBodyIn, ResponseIn;
  }

  lemma CallKeepsOpening(r: FlowRecord, first: Op, op: Op, mark: nat)
    requires OpenedBy(r, first) && (op.LinkOp? || op.EditOp?)
    ensures OpenedBy(ApplyEdit(EditOf(op), r).(recordSeq := mark), first)
  {
    hide CapScalar;
  }

  lemma SheddingTakesBodiesOnly(r: FlowRecord, first: Op, calls: seq<Op>)
    ensures BodiesBy(Shed(r), [])
    ensures OpenedBy(r, first) ==> OpenedBy(Shed(r), first)
    ensures ReportedBy(r, calls) ==> ReportedBy(Shed(r), calls)
  {
  }

  // ---- one call, exactly --------------------------------------------------------------

  /** The caps of this call take the bodies of record `id`: with every older record
      stripped the total would still be over the quota. */
  predicate TakesBodies(s: FlowState, op: Op, quota: nat, id: Text) {
    var p := Prune(s, op.now);
    var t := Effect(p, op);
    var i, m := IndexOf(t.order, id), SatSub(|t.order|, FLOW_CAP);
    !(op.EditOp? && NothingToRecord(op.edit)) && !LeavesCaps(p, op) && m <= i < |t.order| && ShedAt(t, quota, m, i)
  }

  lemma CapsTakeExactly(t: FlowState, quota: nat, id: Text)
    requires Consistent(t) && id in EnforceCaps(t, quota).byId
    ensures var i, m := IndexOf(t.order, id), SatSub(|t.order|, FLOW_CAP);
            && id in t.byId && m <= i < |t.order|
            && EnforceCaps(t, quota).byId[id] == if ShedAt(t, quota, m, i) then Shed(t.byId[id]) else t.byId[id]
  {
    CapsCarry(t, quota);
    assert QueueMatches(t);
    var i := IndexOf(t.order, id);
    CapsKeepExactly(t, quota, i);
    CapsShedExactly(t, quota, i);
  }

  lemma EffectLeaves(s: FlowState, op: Op, id: Text)
    requires Consistent(s) && !(op.EditOp? && NothingToRecord(op.edit)) && id in Effect(Prune(s, op.now), op).byId
    ensures var t := Effect(Prune(s, op.now), op);
            && Consistent(t)
            && if Target(s, op) == Some(id) then t.byId[id] == Written(s, op)
               else id in s.byId && t.byId[id] == s.byId[id]
  {
    var p := Prune(s, op.now);
    PruneCarries(s, op.now);
    EffectExactly(p, op);
    hide Consistent, Effect, Version, Hit, Prune, NothingToRecord;
    assert ExactStepOf(p, op, Effect(p, op), id);
  }

  lemma CapsLeave(s: FlowState, op: Op, quota: nat, id: Text)
    requires !(op.EditOp? && NothingToRecord(op.edit)) && Consistent(Effect(Prune(s, op.now), op))
    requires id in Apply(s, op, quota).byId
    ensures var t := Effect(Prune(s, op.now), op);
            && id in t.byId
            && Apply(s, op, quota).byId[id] == if TakesBodies(s, op, quota, id) then Shed(t.byId[id]) else t.byId[id]
  {
    var p := Prune(s, op.now);
    var t := Effect(p, op);
    hide Consistent, Effect, ShedAt, Prune, Shed, EnforceCaps, NothingToRecord;
    if !LeavesCaps(p, op) { CapsTakeExactly(t, quota, id); }
    hide LeavesCaps;
  }

  /** What a call leaves of record `id`: the version it writes, or the record as it was,
      less its bodies exactly if the caps of the call take them. */
  lemma CallLeaves(s: FlowState, op: Op, quota: nat, id: Text)
    requires Consistent(s) && id in Apply(s, op, quota).byId
    ensures var r := Apply(s, op, quota).byId[id];
            if Target(s, op) == Some(id)
            then r == if TakesBodies(s, op, quota, id) then Shed(Written(s, op)) else Written(s, op)
            else id in s.byId && r == if TakesBodies(s, op, quota, id) then Shed(s.byId[id]) else s.byId[id]
  {
    if !(op.EditOp? && NothingToRecord(op.edit)) {
      PruneCarries(s, op.now);
      EffectExactly(Prune(s, op.now), op);
      hide Consistent, Apply, Effect, Prune, TakesBodies, Target, Written, Shed, NothingToRecord;
      CapsLeave(s, op, quota, id);
      EffectLeaves(s, op, id);
    }
  }

  // ---- over a run ------------------------------------------------------------------------

  /** The calls that reached `id` since it was opened or, later, lost its bodies. */
  function BodyCalls(ops: seq<Op>, quota: nat, id: Text): seq<Op> {
    if ops == [] then []
    else
      var front, op := ops[..|ops| - 1], ops[|ops| - 1];
      var s, calls := Run(EMPTY, front, quota), BodyCalls(front, quota, id);
      if TakesBodies(s, op, quota, id) then []
      else if Target(s, op) != Some(id) then calls
      else if op.OpenOp? then [op]
      else calls + [op]
  }

  ghost predicate Told(r: FlowRecord, calls: seq<Op>, bodyCalls: seq<Op>) {
    calls != [] && OpenedBy(r, calls[0]) && ReportedBy(r, calls) && BodiesBy(r, bodyCalls)
  }

  lemma ToldByOthers(s: FlowState, op: Op, quota: nat, id: Text, calls: seq<Op>, bodyCalls: seq<Op>)
    requires Consistent(s) && id in Apply(s, op, quota).byId && Target(s, op) != Some(id)
    requires id in s.byId ==> Told(s.byId[id], calls, bodyCalls)
    ensures Told(Apply(s, op, quota).byId[id], calls, if TakesBodies(s, op, quota, id) then [] else bodyCalls)
  {
    CallLeaves(s, op, quota, id);
    hide Consistent, Apply, TakesBodies, OpenedBy, ReportedBy, BodiesBy, Shed, Target;
    SheddingTakesBodiesOnly(s.byId[id], calls[0], calls);
  }

  lemma ToldAtOpening(s: FlowState, op: Op, quota: nat, id: Text)
    requires Consistent(s) && op.OpenOp? && id in Apply(s, op, quota).byId && Target(s, op) == Some(id)
    ensures Told(Apply(s, op, quota).byId[id], [op], if TakesBodies(s, op, quota, id) then [] else [op])
  {
    CallLeaves(s, op, quota, id);
    var mark := Prune(s, op.now).cursor + 1;
    hide Consistent, Apply, Prune, TakesBodies, OpenedBy, ReportedBy, BodiesBy, Shed, NewRecord, CapScalar;
    OpeningReports(op, mark);
    SheddingTakesBodiesOnly(NewRecord(op.cell, op.args, op.now).(recordSeq := mark), op, [op]);
  }

  lemma TargetIsLive(s: FlowState, op: Op, id: Text)
    requires Consistent(s) && !op.OpenOp? && Target(s, op) == Some(id)
    ensures var p := Prune(s, op.now);
            && id in s.byId && id in p.byId && p.byId[id] == s.byId[id]
            && (op.LinkOp? || op.EditOp?) && (op.LinkOp? ==> s.byId[id].responseId.None?)
            && Written(s, op) == ApplyEdit(EditOf(op), s.byId[id]).(recordSeq := p.cursor + 1)
  {
    PruneCarries(s, op.now);
    hide Consistent, Prune, ApplyEdit, CapScalar;
  }

  lemma ToldByCall(s: FlowState, op: Op, quota: nat, id: Text, calls: seq<Op>, bodyCalls: seq<Op>)
    requires Consistent(s) && Public(op) && id in Apply(s, op, quota).byId && Target(s, op) == Some(id) && !op.OpenOp?
    requires id in s.byId ==> Told(s.byId[id], calls, bodyCalls)
    ensures Told(Apply(s, op, quota).byId[id], calls + [op],
                 if TakesBodies(s, op, quota, id) then [] else bodyCalls + [op])
  {
    CallLeaves(s, op, quota, id);
    TargetIsLive(s, op, id);
    var r, mark := s.byId[id], Prune(s, op.now).cursor + 1;
    hide Consistent, Apply, Prune, TakesBodies, OpenedBy, ReportedBy, BodiesBy, ApplyEdit, Shed, Target, Written,
      Public;
    CallReports(r, calls, op, mark);
    CallFills(r, bodyCalls, op, mark);
    CallKeepsOpening(r, calls[0], op, mark);
    SheddingTakesBodiesOnly(Written(s, op), calls[0], calls + [op]);
  }

  /** Every field of a live record of every run is what the calls that reached it
      report: what its opening said, the last of what may be said again, the first of
      what is said once, and the bodies reported since the quota last took them. */
  lemma {:induction false} FieldsAreReported(ops: seq<Op>, quota: nat, id: Text)
    requires id in Run(EMPTY, ops, quota).byId && forall i :: 0 <= i < |ops| ==> Public(ops[i])
    ensures var r, calls := Run(EMPTY, ops, quota).byId[id], CallsTo(ops, quota, id);
            && calls != [] && OpenedBy(r, calls[0]) && ReportedBy(r, calls)
            && BodiesBy(r, BodyCalls(ops, quota, id))
            && r.phases == PhaseClock.Run(Stamps(calls))
    decreases |ops|
  {
    PhasesAreHistory(ops, quota, id);
    if ops != [] {
      var front, op := ops[..|ops| - 1], ops[|ops| - 1];
      RunLast(EMPTY, ops, quota);
      EmptyStoreIsConsistent(quota);
      EveryRunIsConsistent(EMPTY, front, quota);
      hide Consistent, Apply, Run, Target, TakesBodies, OpenedBy, ReportedBy, BodiesBy;
      var s := Run(EMPTY, front, quota);
      if id in s.byId { FieldsAreReported(front, quota, id); }
      var calls, bodyCalls := CallsTo(front, quota, id), BodyCalls(front, quota, id);
      if Target(s, op) != Some(id) {
        ToldByOthers(s, op, quota, id, calls, bodyCalls);
      } else if op.OpenOp? {
        ToldAtOpening(s, op, quota, id);
      } else {
        ToldByCall(s, op, quota, id, calls, bodyCalls);
      }
    }
  }
}
