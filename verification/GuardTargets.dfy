/** The upstream a flow's record shows: unless a leaf reported its own, the one the
    terminal metrics name, from the moment the verdict is stamped. */
module GuardTargets {
  import opened Base
  import opened ScalarCap
  import opened FlowRecords
  import FlowStates
  import opened FlowStores
  import opened LinkJoin
  import opened FlowFields
  import opened GuardWorld
  import opened GuardInvariant
  import opened GuardSteps
  import opened GuardSafety
  import opened GuardTheorems
  import opened GuardCalls
  import opened GuardMetrics

  /** A leaf reports an upstream for flow `id`. */
  predicate LeafReports(w: World, a: Action, id: Text) {
    a.Call? && Target(w.store, a.op) == Some(id) && LeafTargetIn(a.op).Some?
  }

  ghost predicate NoLeafAlong(w: World, actions: seq<Action>, quota: nat, id: Text)
    requires Possible(w, actions, quota)
    decreases |actions|
  {
    actions != [] ==>
      !LeafReports(w, actions[0], id) && NoLeafAlong(Next(w, actions[0], quota), actions[1..], quota, id)
  }

  predicate StampedFor(w: World, g: GuardId, id: Text) {
    g in w.l1 && w.l1[g].apiCallId == id && w.l1[g].stage >= STAMPED
  }

  function Upstream(guard: L1Guard): Option<Text> {
    CapOption(Or(guard.readings.provider, guard.readings.route))
  }

  ghost predicate TargetShown(w: World, id: Text) {
    id in w.store.byId ==>
      && (forall g :: StampedFor(w, g, id) ==> w.store.byId[id].upstreamTarget == Upstream(w.l1[g]))
      && ((forall g :: !StampedFor(w, g, id)) ==> w.store.byId[id].upstreamTarget == None)
  }

  // ---- the guards -----------------------------------------------------------------

  lemma GuardStamps(w: World, a: Action, quota: nat, g: GuardId, id: Text)
    requires Enabled(w, a)
    requires g in w.l1 && w.l1[g].stage >= WON ==> w.l1[g].cell in w.cells && w.cells[w.l1[g].cell] == Finalized
    ensures StampedFor(Next(w, a, quota), g, id)
       <==> StampedFor(w, g, id) || (a.StampL1? && a.g == g && w.l1[g].apiCallId == id)
    ensures StampedFor(Next(w, a, quota), g, id) ==> g in w.l1 && Upstream(Next(w, a, quota).l1[g]) == Upstream(w.l1[g])
  {
    if !Moves(a, g) {
      OthersStay(w, a, quota, g);
    } else if g in w.l1 && w.l1[g].stage >= WON {
      LaterStep(w, a, quota, g);
    } else {
      EarlyStep(w, a, quota, g);
    }
    hide Next, CapOption;
  }

  /** Only one guard of a flow gets as far. */
  lemma OneStamps(w: World, g: GuardId, h: GuardId)
    requires Safe(w) && g in w.l1 && h in w.l1 && w.l1[g].apiCallId == w.l1[h].apiCallId
    requires w.l1[g].stage >= CLAIMED && w.l1[h].stage >= CLAIMED
    ensures g == h
  {
    GuardsFlowOk(w, g);
    GuardsFlowOk(w, h);
    hide Safe, FlowOk, CellOk;
  }

  // ---- the store --------------------------------------------------------------------

  lemma EditTargets(r: FlowRecord, op: Op)
    requires op.LinkOp? || op.EditOp?
    ensures ApplyEdit(EditOf(op), r).upstreamTarget == Or(LeafTargetIn(op), Or(r.upstreamTarget, ProviderIn(op)))
  {
    hide CapScalar;
  }

  lemma WrittenTarget(s: FlowState, op: Op, id: Text)
    requires FlowStates.Consistent(s) && Target(s, op) == Some(id)
    requires op.OpenOp? ==> CapScalar(op.args.apiCallId) != id
    ensures id in s.byId
    ensures Written(s, op).upstreamTarget == Or(LeafTargetIn(op), Or(s.byId[id].upstreamTarget, ProviderIn(op)))
  {
    PruneCarries(s, op.now);
    hide FlowStates.Consistent, CapScalar, FlowStates.Prune, ApplyEdit, EditOf, LeafTargetIn, ProviderIn,
      NothingToRecord;
    EditTargets(s.byId[id], op);
  }

  /** What one call makes of the upstream target of a record it does not open. */
  lemma TargetAfter(s: FlowState, op: Op, quota: nat, id: Text)
    requires FlowStates.Consistent(s) && id in Apply(s, op, quota).byId
    requires op.OpenOp? ==> CapScalar(op.args.apiCallId) != id
    ensures id in s.byId
    ensures var t, t' := s.byId[id].upstreamTarget, Apply(s, op, quota).byId[id].upstreamTarget;
            t' == if Target(s, op) == Some(id) then Or(LeafTargetIn(op), Or(t, ProviderIn(op))) else t
  {
    hide FlowStates.Consistent, CapScalar, Apply, Target, Written, LeafTargetIn, ProviderIn;
    ApplyStep(s, op, quota);
    assert StepOf(s, op, Apply(s, op, quota), id);
    if Target(s, op) == Some(id) { WrittenTarget(s, op, id); }
  }

  lemma OpenedTarget(s: FlowState, op: Op, quota: nat)
    requires FlowStates.Consistent(s) && op.OpenOp? && CapScalar(op.args.apiCallId) in Apply(s, op, quota).byId
    ensures Apply(s, op, quota).byId[CapScalar(op.args.apiCallId)].upstreamTarget == None
  {
    hide FlowStates.Consistent, CapScalar;
    ApplyStep(s, op, quota);
    assert StepOf(s, op, Apply(s, op, quota), CapScalar(op.args.apiCallId));
  }

  /** A step that is no leaf's report leaves the upstream of a live record alone, but
      for the verdict, which fills it where it is missing. */
  lemma TargetStep(w: World, a: Action, quota: nat, id: Text)
    requires Safe(w) && Enabled(w, a) && id in Next(w, a, quota).store.byId && !Opens(a, id) && !LeafReports(w, a, id)
    ensures id in w.store.byId
    ensures var t, t' := w.store.byId[id].upstreamTarget, Next(w, a, quota).store.byId[id].upstreamTarget;
            t' == if a.StampL1? && w.l1[a.g].apiCallId == id then Or(t, Upstream(w.l1[a.g])) else t
  {
    StoreIsConsistent(w);
    hide Safe, LeafReports, FlowStates.Consistent, Upstream, Enabled;
    if a.Call? {
      CalledStore(w, a.op, quota);
      CallTarget(w, a.op, quota, id);
    } else {
      GuardsSend(w, a, quota);
      hide Next, Sent;
      GuardTarget(w, a, quota, id);
    }
  }

  lemma CallTarget(w: World, op: Op, quota: nat, id: Text)
    requires FlowStates.Consistent(w.store) && CallAllowed(w, op) && id in Apply(w.store, op, quota).byId
    requires !Opens(Call(op), id) && !LeafReports(w, Call(op), id)
    ensures id in w.store.byId
    ensures Apply(w.store, op, quota).byId[id].upstreamTarget == w.store.byId[id].upstreamTarget
  {
    TargetAfter(w.store, op, quota, id);
    hide FlowStates.Consistent, Apply, Target, CapScalar;
  }

  lemma GuardTarget(w: World, a: Action, quota: nat, id: Text)
    requires Safe(w) && Enabled(w, a) && !a.Call? && id in Answered(w.store, Sent(w, a), quota).byId
    ensures id in w.store.byId
    ensures var t, t' := w.store.byId[id].upstreamTarget, Answered(w.store, Sent(w, a), quota).byId[id].upstreamTarget;
            t' == if a.StampL1? && w.l1[a.g].apiCallId == id then Or(t, Upstream(w.l1[a.g])) else t
  {
    hide Safe, Apply, Target, CapScalar, CapOption, FlowStates.Consistent;
    StoreIsConsistent(w);
    var sent := Sent(w, a);
    if sent.Some? {
      TargetAfter(w.store, sent.value, quota, id);
      if a.StampL1? {
        GuardKey(w, a.g);
        VerdictReaches(w.store, sent.value, quota, id);
      }
    }
  }

  lemma GuardKey(w: World, g: GuardId)
    requires Safe(w) && g in w.l1
    ensures w.l1[g].apiCallId !in w.store.linkIndex
  {
    GuardsFlowOk(w, g);
  }

  lemma VerdictReaches(s: FlowState, op: Op, quota: nat, id: Text)
    requires FlowStates.Consistent(s) && op.EditOp? && op.edit.FinalizeEdit? && op.id !in s.linkIndex
    requires id in Apply(s, op, quota).byId
    ensures Target(s, op) == Some(id) <==> op.id == id
  {
    if op.id == id { KeyIsTarget(s, id, op.edit, op.now, quota); }
    PruneCarries(s, op.now);
    hide FlowStates.Consistent, Apply, FlowStates.Prune;
  }

  // ---- over a run -----------------------------------------------------------------------

  predicate Verdicts(w: World, a: Action, g: GuardId, id: Text) {
    a.StampL1? && a.g == g && g in w.l1 && w.l1[g].apiCallId == id
  }

  lemma WonCell(w: World, g: GuardId)
    requires Safe(w)
    ensures g in w.l1 && w.l1[g].stage >= WON ==> w.l1[g].cell in w.cells && w.cells[w.l1[g].cell] == Finalized
  {
    if g in w.l1 { GuardsFlowOk(w, g); }
    hide Safe;
  }

  lemma StampsStep(w: World, a: Action, quota: nat, id: Text, g: GuardId)
    requires Safe(w) && Enabled(w, a)
    ensures StampedFor(Next(w, a, quota), g, id) <==> StampedFor(w, g, id) || Verdicts(w, a, g, id)
    ensures StampedFor(Next(w, a, quota), g, id) ==> g in w.l1 && Upstream(Next(w, a, quota).l1[g]) == Upstream(w.l1[g])
  {
    hide Safe, Next, Upstream;
    WonCell(w, g);
    GuardStamps(w, a, quota, g, id);
  }

  lemma FirstToStamp(w: World, g: GuardId, id: Text)
    requires Safe(w) && AtL1(w, g, MEASURED) && w.l1[g].apiCallId == id
    ensures forall h :: !StampedFor(w, h, id)
  {
    hide Safe;
    forall h ensures !StampedFor(w, h, id) { if StampedFor(w, h, id) { OneStamps(w, g, h); } }
  }

  /** The guards that have stamped, and what they read, after step `a`. */
  ghost predicate StampsMove(w: World, a: Action, w': World, id: Text) {
    forall g ::
      && (StampedFor(w', g, id) <==> StampedFor(w, g, id) || Verdicts(w, a, g, id))
      && (StampedFor(w', g, id) ==> g in w.l1 && Upstream(w'.l1[g]) == Upstream(w.l1[g]))
  }

  lemma OpenedIsShown(w: World, a: Action, w': World, id: Text)
    requires StampsMove(w, a, w', id) && a.Call? && id in w'.store.byId && w'.store.byId[id].upstreamTarget == None
    requires forall g :: !StampedFor(w, g, id)
    ensures TargetShown(w', id)
  {
    hide StampedFor, Upstream;
  }

  lemma SameIsShown(w: World, a: Action, w': World, id: Text)
    requires StampsMove(w, a, w', id) && TargetShown(w, id) && !(a.StampL1? && a.g in w.l1 && w.l1[a.g].apiCallId == id)
    requires id in w.store.byId && id in w'.store.byId
    requires w'.store.byId[id].upstreamTarget == w.store.byId[id].upstreamTarget
    ensures TargetShown(w', id)
  {
    hide StampedFor, Upstream;
  }

  lemma VerdictIsShown(w: World, a: Action, w': World, id: Text)
    requires StampsMove(w, a, w', id) && TargetShown(w, id) && a.StampL1? && a.g in w.l1 && w.l1[a.g].apiCallId == id
    requires id in w.store.byId && id in w'.store.byId && forall g :: !StampedFor(w, g, id)
    requires w'.store.byId[id].upstreamTarget == Or(w.store.byId[id].upstreamTarget, Upstream(w.l1[a.g]))
    ensures TargetShown(w', id)
  {
    assert StampedFor(w', a.g, id);
    hide StampedFor, Upstream;
  }

  lemma StampsMoveInStep(w: World, a: Action, quota: nat, id: Text)
    requires Safe(w) && Enabled(w, a)
    ensures StampsMove(w, a, Next(w, a, quota), id)
  {
    hide Safe, Upstream, StampedFor, Verdicts, Enabled;
    forall g
      ensures StampedFor(Next(w, a, quota), g, id) <==> StampedFor(w, g, id) || Verdicts(w, a, g, id)
      ensures StampedFor(Next(w, a, quota), g, id) ==>
                g in w.l1 && Upstream(Next(w, a, quota).l1[g]) == Upstream(w.l1[g])
    {
      StampsStep(w, a, quota, id, g);
    }
    hide Next;
  }

  lemma StepShowsTarget(w: World, a: Action, quota: nat, id: Text)
    requires Safe(w) && Enabled(w, a) && TargetShown(w, id) && !LeafReports(w, a, id)
    ensures TargetShown(Next(w, a, quota), id)
  {
    hide Safe, Upstream, LeafReports, Next, StampsMove;
    StampsMoveInStep(w, a, quota, id);
    if id in Next(w, a, quota).store.byId {
      if Opens(a, id) {
        NoGuardYet(w, a, quota, id);
        OpenedIsShown(w, a, Next(w, a, quota), id);
      } else {
        TargetStep(w, a, quota, id);
        if a.StampL1? && w.l1[a.g].apiCallId == id {
          FirstToStamp(w, a.g, id);
          VerdictIsShown(w, a, Next(w, a, quota), id);
        } else {
          SameIsShown(w, a, Next(w, a, quota), id);
        }
      }
    }
  }

  lemma NoGuardYet(w: World, a: Action, quota: nat, id: Text)
    requires Safe(w) && Enabled(w, a) && Opens(a, id) && id in Next(w, a, quota).store.byId
    ensures forall g :: !StampedFor(w, g, id)
    ensures Next(w, a, quota).store.byId[id].upstreamTarget == None
  {
    StoreIsConsistent(w);
    forall g ensures !StampedFor(w, g, id) { if g in w.l1 { GuardsFlowOk(w, g); } }
    hide Safe;
    CalledStore(w, a.op, quota);
    OpenedTarget(w.store, a.op, quota);
  }

  lemma {:induction false} RunShowsTarget(w: World, actions: seq<Action>, quota: nat, id: Text)
    requires Safe(w) && Possible(w, actions, quota) && TargetShown(w, id) && NoLeafAlong(w, actions, quota, id)
    ensures TargetShown(After(w, actions, quota), id)
    decreases |actions|
  {
    hide Safe, Next, Enabled, TargetShown, LeafReports;
    if actions != [] {
      StepKeepsSafe(w, actions[0], quota);
      StepShowsTarget(w, actions[0], quota, id);
      RunShowsTarget(Next(w, actions[0], quota), actions[1..], quota, id);
    }
  }

  /** A live record to which no leaf reported an upstream shows none until the verdict
      of its guard is stamped, and from then on the capped upstream of the payload. */
  lemma RecordShowsUpstream(w: World, actions: seq<Action>, quota: nat, g: GuardId)
    requires Reachable(w, actions, quota) && g in w.l1 && w.l1[g].apiCallId in w.store.byId && w.l1[g].stage >= CLAIMED
    requires NoLeafAlong(START, actions, quota, w.l1[g].apiCallId)
    ensures var shown := w.store.byId[w.l1[g].apiCallId].upstreamTarget;
            if w.l1[g].stage < STAMPED then shown == None
            else w.l1[g].metrics.Some? && shown == CapOption(w.l1[g].metrics.value.upstream)
  {
    hide Safe;
    ReachableIsSafe(w, actions, quota);
    StartIsSafe();
    RunShowsTarget(START, actions, quota, w.l1[g].apiCallId);
    if w.l1[g].stage < STAMPED {
      forall h ensures !StampedFor(w, h, w.l1[g].apiCallId) {
        if StampedFor(w, h, w.l1[g].apiCallId) { OneStamps(w, g, h); }
      }
    } else {
      MeasuredPayload(w, g);
      assert StampedFor(w, g, w.l1[g].apiCallId);
    }
    hide Reachable, Possible, After, NoLeafAlong, CapOption;
  }
}
