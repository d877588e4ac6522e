/** What a run of the store leaves of one record: what was recorded once stays
    recorded, and the timestamps are those of a history of stamps. */
module FlowHistories {
  import opened Base
  import opened ScalarCap
  import PhaseClock
  import opened FlowRecords
  import opened FlowStates
  import opened FlowStores
  import opened LinkJoin

  // ---- nothing recorded is lost ------------------------------------------------

  ghost predicate Kept<T>(was: Option<T>, now: Option<T>) {
    was.Some? ==> now == was
  }

  predicate StillSet<T>(was: Option<T>, now: Option<T>) {
    was.Some? ==> now.Some?
  }

  /** The later version of a record agrees with the earlier one on what is written
      once (identity, response id, measured phases, first upstream byte), and has
      not cleared what may be written again. Bodies are not spoken of: the quota
      takes them. */
  ghost predicate Grown(was: FlowRecord, now: FlowRecord) {
    && now.claim == was.claim && now.apiCallId == was.apiCallId && now.httpMethod == was.httpMethod
        && now.uri == was.uri
    && now.headers == was.headers && now.startedMs == was.startedMs
    && now.clientLabel == was.clientLabel && now.clientSource == was.clientSource
    && Kept(was.responseId, now.responseId)
    && Kept(was.firstUpstreamByteMs, now.firstUpstreamByteMs)
    && (forall phase: PhaseClock.Phase :: Kept(was.phases.Get(phase), now.phases.Get(phase)))
    && StillSet(was.upstreamTarget, now.upstreamTarget) && StillSet(was.modelServed, now.modelServed)
    && StillSet(was.modelRequested, now.modelRequested) && StillSet(was.usage, now.usage)
    && StillSet(was.terminalReason, now.terminalReason) && StillSet(was.finishedMs, now.finishedMs)
    && (was.attempts != [] ==> now.attempts != [])
  }

  lemma StampKeeps(p: PhaseClock.Phases, stamped: PhaseClock.Phase, now: nat, phase: PhaseClock.Phase)
    ensures Kept(p.Get(phase), p.Stamp(stamped, now).Get(phase))
  {
    if p.Get(stamped).None? { PhaseClock.StampLatest(p, stamped, now); }
  }

  lemma EditGrows(e: Edit, r: FlowRecord)
    requires e.LinkEdit? ==> r.responseId.None?
    ensures Grown(r, ApplyEdit(e, r))
  {
    forall phase: PhaseClock.Phase ensures Kept(r.phases.Get(phase), ApplyEdit(e, r).phases.Get(phase)) {
      match e
      case NormalizedEdit(now, _, _) => StampKeeps(r.phases, PhaseClock.Normalization, now, phase);
      case FinalizeEdit(now, _, _, _, _) => StampKeeps(r.phases, PhaseClock.Finalize, now, phase);
      case RoutingEdit(now) => StampKeeps(r.phases, PhaseClock.Routing, now, phase);
      case ContentEdit(now) => StampKeeps(r.phases, PhaseClock.FirstContent, now, phase);
      case StreamEndEdit(now) => StampKeeps(r.phases, PhaseClock.StreamEnd, now, phase);
      case _ =>
    }
    hide PhaseClock.Phases.Get, PhaseClock.Phases.Stamp;
  }

  lemma CarriedGrows(a: FlowRecord, b: FlowRecord)
    requires Carried(a, b)
    ensures Grown(a, b)
  {
  }

  lemma GrownIsTransitive(a: FlowRecord, b: FlowRecord, c: FlowRecord)
    requires Grown(a, b) && Grown(b, c)
    ensures Grown(a, c)
  {
    forall phase: PhaseClock.Phase ensures Kept(a.phases.Get(phase), c.phases.Get(phase)) {
      assert Kept(a.phases.Get(phase), b.phases.Get(phase)) && Kept(b.phases.Get(phase), c.phases.Get(phase));
    }
  }

  /** The operation does not open `id` again. */
  predicate DoesNotReopen(op: Op, id: Text) {
    op.OpenOp? ==> CapScalar(op.args.apiCallId) != id
  }

  lemma ApplyGrows(s: FlowState, op: Op, quota: nat, id: Text)
    requires Consistent(s) && Public(op) && DoesNotReopen(op, id) && id in Apply(s, op, quota).byId
    ensures id in s.byId && Grown(s.byId[id], Apply(s, op, quota).byId[id])
  {
    ApplyStep(s, op, quota);
    hide Consistent, Apply, CapScalar, Grown, Carried, ApplyEdit;
    var s' := Apply(s, op, quota);
    assert StepOf(s, op, s', id);
    if Target(s, op) == Some(id) {
      var p := Prune(s, op.now);
      PruneCarries(s, op.now);
      var edited := ApplyEdit(EditOf(op), p.byId[id]);
      EditGrows(EditOf(op), p.byId[id]);
      CarriedGrows(Written(s, op), s'.byId[id]);
      GrownIsTransitive(s.byId[id], edited, Written(s, op));
      GrownIsTransitive(s.byId[id], Written(s, op), s'.byId[id]);
    } else {
      CarriedGrows(s.byId[id], s'.byId[id]);
    }
  }

  /** Over any run that does not open the id again, a record still live at the end
      was live all along and has only grown: a link, a measured phase, the first
      upstream byte never change, nothing else recorded is ever cleared. */
  lemma {:induction false} RecordsOnlyGrow(s: FlowState, ops: seq<Op>, quota: nat, id: Text)
    requires Consistent(s) && id in Run(s, ops, quota).byId
    requires forall i :: 0 <= i < |ops| ==> Public(ops[i]) && DoesNotReopen(ops[i], id)
    ensures id in s.byId && Grown(s.byId[id], Run(s, ops, quota).byId[id])
    decreases |ops|
  {
    if ops == [] {
      CarriedGrows(s.byId[id], s.byId[id]);
    } else {
      hide Consistent, Apply, Grown;
      var mid := Apply(s, ops[0], quota);
      ApplyStep(s, ops[0], quota);
      RecordsOnlyGrow(mid, ops[1..], quota, id);
      ApplyGrows(s, ops[0], quota, id);
      GrownIsTransitive(s.byId[id], mid.byId[id], Run(s, ops, quota).byId[id]);
    }
  }

  /** The operation reports no upstream target of a leaf's own. */
  predicate NoLeafTarget(op: Op) {
    op.EditOp? && op.edit.UpstreamEdit? ==> op.edit.target.None?
  }

  lemma EditKeepsTarget(e: Edit, r: FlowRecord)
    requires e.UpstreamEdit? ==> e.target.None?
    ensures Kept(r.upstreamTarget, ApplyEdit(e, r).upstreamTarget)
  {
  }

  lemma ApplyKeepsTarget(s: FlowState, op: Op, quota: nat, id: Text)
    requires Consistent(s) && Public(op) && DoesNotReopen(op, id) && NoLeafTarget(op) && id in Apply(s, op, quota).byId
    ensures id in s.byId && Kept(s.byId[id].upstreamTarget, Apply(s, op, quota).byId[id].upstreamTarget)
  {
    ApplyStep(s, op, quota);
    PruneCarries(s, op.now);
    hide Consistent, Apply, CapScalar, Prune, ApplyEdit, Kept, Carried;
    var s' := Apply(s, op, quota);
    assert StepOf(s, op, s', id);
    if Target(s, op) == Some(id) {
      EditKeepsTarget(EditOf(op), Prune(s, op.now).byId[id]);
      CarriedKeepsTarget(Written(s, op), s'.byId[id]);
    } else {
      CarriedKeepsTarget(s.byId[id], s'.byId[id]);
    }
  }

  lemma CarriedKeepsTarget(a: FlowRecord, b: FlowRecord)
    requires Carried(a, b)
    ensures a.upstreamTarget == b.upstreamTarget
  {
  }

  /** A flow keeps the upstream target a leaf reported through finalisation and
      everything else, until a leaf reports another. */
  lemma {:induction false} OnlyALeafChangesTheTarget(s: FlowState, ops: seq<Op>, quota: nat, id: Text)
    requires Consistent(s) && id in Run(s, ops, quota).byId
    requires forall i :: 0 <= i < |ops| ==> Public(ops[i]) && DoesNotReopen(ops[i], id) && NoLeafTarget(ops[i])
    ensures id in s.byId && Kept(s.byId[id].upstreamTarget, Run(s, ops, quota).byId[id].upstreamTarget)
    decreases |ops|
  {
    hide Consistent, Apply;
    if ops != [] {
      ApplyStep(s, ops[0], quota);
      OnlyALeafChangesTheTarget(Apply(s, ops[0], quota), ops[1..], quota, id);
      ApplyKeepsTarget(s, ops[0], quota, id);
    }
  }

  // ---- timestamps are histories --------------------------------------------------

  /** The stamps an edit applies to the record it reaches. */
  function StampsOf(e: Edit): seq<PhaseClock.Reading> {
    match e
    case NormalizedEdit(now, _, _) => [PhaseClock.Reading(PhaseClock.Normalization, now)]
    case FinalizeEdit(now, _, _, _, _) => [PhaseClock.Reading(PhaseClock.Finalize, now)]
    case RoutingEdit(now) => [PhaseClock.Reading(PhaseClock.Routing, now)]
    case ContentEdit(now) => [PhaseClock.Reading(PhaseClock.FirstContent, now)]
    case StreamEndEdit(now) => [PhaseClock.Reading(PhaseClock.StreamEnd, now)]
    case _ => []
  }

  /** The calls of a run from the empty store that reached `id`, by whichever of its
      ids, since it was last opened: first the opening, then the rest in order. */
  function CallsTo(ops: seq<Op>, quota: nat, id: Text): seq<Op> {
    if ops == [] then []
    else
      var front, op := ops[..|ops| - 1], ops[|ops| - 1];
      if Target(Run(EMPTY, front, quota), op) != Some(id) then CallsTo(front, quota, id)
      else if op.OpenOp? then [op]
      else CallsTo(front, quota, id) + [op]
  }

  /** The stamps some calls apply to the record they all reach. */
  function Stamps(calls: seq<Op>): seq<PhaseClock.Reading> {
    if calls == [] then []
    else
      var front, op := calls[..|calls| - 1], calls[|calls| - 1];
      match op
      case OpenOp(_, _, now) => [PhaseClock.Reading(PhaseClock.Ingress, now)]
      case LinkOp(_, _, _) => Stamps(front)
      case EditOp(_, e, _) => Stamps(front) + StampsOf(e)
      case ReadOp(_) => Stamps(front)
  }

  /** The stamps the calls of a run sent to `id` since it was last opened. */
  function History(ops: seq<Op>, quota: nat, id: Text): seq<PhaseClock.Reading> {
    Stamps(CallsTo(ops, quota, id))
  }

  lemma HistoryStep(ops: seq<Op>, quota: nat, id: Text)
    requires ops != []
    ensures var front, op := ops[..|ops| - 1], ops[|ops| - 1];
            History(ops, quota, id)
            == if Target(Run(EMPTY, front, quota), op) != Some(id) then History(front, quota, id)
               else if op.OpenOp? then [PhaseClock.Reading(PhaseClock.Ingress, op.now)]
               else History(front, quota, id) + StampsOf(EditOf(op))
  {
    var front, op := ops[..|ops| - 1], ops[|ops| - 1];
    hide Run;
    if Target(Run(EMPTY, front, quota), op) == Some(id) && !op.OpenOp? {
      var calls := CallsTo(front, quota, id);
      assert (calls + [op])[..|calls|] == calls;
      assert Stamps(calls) + [] == Stamps(calls);
    }
  }

  lemma {:induction false} RunLast(s: FlowState, ops: seq<Op>, quota: nat)
    requires ops != []
    ensures Run(s, ops, quota) == Apply(Run(s, ops[..|ops| - 1], quota), ops[|ops| - 1], quota)
    decreases |ops|
  {
    hide Apply;
    if |ops| > 1 {
      RunLast(Apply(s, ops[0], quota), ops[1..], quota);
      assert ops[1..][..|ops| - 2] == ops[..|ops| - 1][1..];
    } else {
      assert ops[..0] == [] && ops[1..] == [];
    }
  }

  lemma EditStamps(e: Edit, r: FlowRecord, h: seq<PhaseClock.Reading>)
    requires r.phases == PhaseClock.Run(h)
    ensures ApplyEdit(e, r).phases == PhaseClock.Run(h + StampsOf(e))
  {
    if StampsOf(e) == [] {
      assert h + [] == h;
    } else {
      assert (h + StampsOf(e))[..|h|] == h;
    }
    hide PhaseClock.Phases.Stamp;
  }

  lemma OpenStamps(now: nat)
    ensures PhaseClock.UNMEASURED.Stamp(PhaseClock.Ingress, now)
         == PhaseClock.Run([PhaseClock.Reading(PhaseClock.Ingress, now)])
  {
    var h := [PhaseClock.Reading(PhaseClock.Ingress, now)];
    assert h[..0] == [];
  }

  lemma CarriedKeepsPhases(a: FlowRecord, b: FlowRecord)
    requires Carried(a, b)
    ensures a.phases == b.phases
  {
  }

  /** One call, seen from the record it leaves under `id`. */
  lemma ApplyStamps(s: FlowState, op: Op, quota: nat, id: Text, h: seq<PhaseClock.Reading>)
    requires Consistent(s) && id in Apply(s, op, quota).byId
    requires id in s.byId ==> s.byId[id].phases == PhaseClock.Run(h)
    ensures var phases := Apply(s, op, quota).byId[id].phases;
            if Target(s, op) != Some(id) then id in s.byId && phases == PhaseClock.Run(h)
            else if op.OpenOp? then phases == PhaseClock.Run([PhaseClock.Reading(PhaseClock.Ingress, op.now)])
            else id in s.byId && phases == PhaseClock.Run(h + StampsOf(EditOf(op)))
  {
    ApplyStep(s, op, quota);
    PruneCarries(s, op.now);
    hide Consistent, Apply, Prune, ApplyEdit, CapScalar, StampsOf, PhaseClock.Run;
    var s' := Apply(s, op, quota);
    assert StepOf(s, op, s', id);
    if Target(s, op) == Some(id) {
      CarriedKeepsPhases(Written(s, op), s'.byId[id]);
      if op.OpenOp? { OpenStamps(op.now); } else { EditStamps(EditOf(op), Prune(s, op.now).byId[id], h); }
    } else {
      CarriedKeepsPhases(s.byId[id], s'.byId[id]);
    }
    hide Carried;
  }

  /** The timestamps of a live record are the stamps sent to it, applied in order to a
      fresh bundle, the ingress first. */
  lemma {:induction false} PhasesAreHistory(ops: seq<Op>, quota: nat, id: Text)
    requires id in Run(EMPTY, ops, quota).byId
    ensures Run(EMPTY, ops, quota).byId[id].phases == PhaseClock.Run(History(ops, quota, id))
    ensures History(ops, quota, id) != [] && History(ops, quota, id)[0].phase == PhaseClock.Ingress
    decreases |ops|
  {
    if ops != [] {
      var front, op := ops[..|ops| - 1], ops[|ops| - 1];
      RunLast(EMPTY, ops, quota);
      HistoryStep(ops, quota, id);
      EmptyStoreIsConsistent(quota);
      EveryRunIsConsistent(EMPTY, front, quota);
      hide Consistent, Apply, Run, PhaseClock.Run, Target, StampsOf, History;
      var s := Run(EMPTY, front, quota);
      if id in s.byId { PhasesAreHistory(front, quota, id); }
      ApplyStamps(s, op, quota, id, History(front, quota, id));
    }
  }

  /** So each measured phase of a live record is the greatest clock reading among the
      first stamps sent to it up to that phase's own. */
  lemma StoredPhaseHoldsGreatestReading(ops: seq<Op>, quota: nat, id: Text, i: nat)
    requires id in Run(EMPTY, ops, quota).byId
    requires i < |History(ops, quota, id)| && PhaseClock.FirstWrite(History(ops, quota, id), i)
    ensures var h := History(ops, quota, id);
            var value := Run(EMPTY, ops, quota).byId[id].phases.Get(h[i].phase);
            value.Some? && PhaseClock.GreatestReading(h, i, value.value)
  {
    PhasesAreHistory(ops, quota, id);
    PhaseClock.PhaseHoldsGreatestReading(History(ops, quota, id), i);
    hide Run, History, PhaseClock.Run, PhaseClock.GreatestReading;
  }

  /** And if the calls of a run stamp a flow in phase order the waterfall its live
      record shows is sorted, whatever the clock did. */
  lemma StoredChainIsSorted(ops: seq<Op>, quota: nat, id: Text, a: PhaseClock.Phase, b: PhaseClock.Phase)
    requires id in Run(EMPTY, ops, quota).byId && PhaseClock.WrittenInPhaseOrder(History(ops, quota, id))
    requires PhaseClock.Rank(a) < PhaseClock.Rank(b)
    ensures var phases := Run(EMPTY, ops, quota).byId[id].phases;
            phases.Get(a).Some? && phases.Get(b).Some? ==> phases.Get(a).value <= phases.Get(b).value
  {
    PhasesAreHistory(ops, quota, id);
    var phases, h := Run(EMPTY, ops, quota).byId[id].phases, History(ops, quota, id);
    hide Run, History;
    if phases.Get(a).Some? && phases.Get(b).Some? { PhaseClock.ChainIsSorted(h, a, b); }
    hide PhaseClock.Run, PhaseClock.WrittenInPhaseOrder;
  }

  /** Whatever the clock does, every live record of every run has its ingress
      measured and no phase of it before the ingress. */
  lemma IngressComesFirst(ops: seq<Op>, quota: nat, id: Text, phase: PhaseClock.Phase)
    requires id in Run(EMPTY, ops, quota).byId && Run(EMPTY, ops, quota).byId[id].phases.Get(phase).Some?
    ensures var phases := Run(EMPTY, ops, quota).byId[id].phases;
            phases.ingressMs.Some? && phases.ingressMs.value <= phases.Get(phase).value
  {
    PhasesAreHistory(ops, quota, id);
    var h := History(ops, quota, id);
    hide Run, History;
    PhaseClock.SetWhenWritten(h, phase);
    var w :| 0 <= w < |h| && h[w].phase == phase;
    var i := PhaseClock.HasFirstWrite(h, w);
    assert PhaseClock.FirstWrite(h, 0);
    PhaseClock.StampOrderIsMonotone(h, 0, i);
  }
}
