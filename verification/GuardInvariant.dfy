/** What every step of the finalisation protocol keeps. */
module GuardInvariant {
  import opened Base
  import opened ScalarCap
  import opened FlowRecords
  import FlowStates
  import opened FlowStores
  import opened GuardWorld

  /** The terminal status and reason the holder of a cell has written, if it has. */
  function Verdict(w: World, cell: CellId): Option<(FlowStatus, Option<Text>)> {
    if cell !in w.holder then None
    else match w.holder[cell]
      case Nobody => None
      case ByL0(g) =>
        if g in w.l0 && w.l0[g].stage == Gone(true) then Some((Failed, CapOption(Some(UNHANDLED)))) else None
      case ByL1(g) =>
        if g in w.l1 && w.l1[g].stage >= STAMPED then Some((w.l1[g].status, CapOption(w.l1[g].reason))) else None
  }

  /** The attempt trace the holder of a cell has written. */
  function TraceOf(w: World, cell: CellId): seq<Attempt> {
    if cell in w.holder && w.holder[cell].ByL1? && w.holder[cell].l1 in w.l1 && w.l1[w.holder[cell].l1].stage >= TRACED
    then w.l1[w.holder[cell].l1].readings.attempts else []
  }

  ghost predicate FlowOk(w: World, id: Text)
    requires id in w.flows
  {
    w.flows[id].cell in w.cells && w.flows[id].cell in w.owner && w.owner[w.flows[id].cell] == id && id !in w.linked
  }

  ghost predicate CellOk(w: World, c: CellId)
    requires c in w.cells
  {
    && c in w.owner && w.owner[c] in w.flows && w.flows[w.owner[c]].cell == c
    && c in w.holder
    && Count(w.wins, c) == (if w.cells[c] == Finalized then 1 else 0)
    && match w.holder[c]
       case Nobody => w.cells[c] == OpenL0
       case ByL0(g) => g in w.l0 && w.l0[g].cell == c && w.l0[g].Won() && w.cells[c] == Finalized
       case ByL1(g) => g in w.l1 && w.l1[g].cell == c && w.l1[g].stage >= CLAIMED
                       && w.cells[c] == if w.l1[g].stage < WON then ClaimedL1 else Finalized
  }

  ghost predicate GuardsFlow(w: World, id: Text, cell: CellId) {
    id in w.flows && w.flows[id].cell == cell && cell in w.cells && cell in w.holder
  }

  ghost predicate L0Ok(w: World, g: GuardId)
    requires g in w.l0
  {
    var guard := w.l0[g];
    && GuardsFlow(w, guard.apiCallId, guard.cell)
    && (guard.Won() <==> w.holder[guard.cell] == ByL0(g))
    && (guard.stage != Held ==> w.cells[guard.cell] != OpenL0)
  }

  ghost predicate L1Ok(w: World, g: GuardId)
    requires g in w.l1
  {
    var guard := w.l1[g];
    && GuardsFlow(w, guard.apiCallId, guard.cell)
    && guard.endpoint == w.flows[guard.apiCallId].uri
    && guard.stage <= RELEASED
    && (guard.stage >= CLAIMED <==> w.holder[guard.cell] == ByL1(g))
    && (guard.stage == LOST ==> w.cells[guard.cell] != OpenL0)
    && (guard.dropped ==> guard.stage >= WON)
    && (guard.stage >= WON ==> guard.status != Open)
    && guard.metrics == (if guard.stage >= MEASURED then Some(MetricsOf(guard.endpoint, guard.readings)) else None)
    && (guard.stage >= REGISTERED ==> guard.token in w.issued && w.issued[guard.token] == g)
    && (guard.InFlight() ==> guard.apiCallId in w.hub && w.hub[guard.apiCallId] == guard.token)
  }

  /** A registry entry belongs to the engine guard that holds the flow's cell. */
  ghost predicate HubOk(w: World, id: Text)
    requires id in w.hub
  {
    && id in w.flows && w.flows[id].cell in w.holder
    && match w.holder[w.flows[id].cell]
       case ByL1(g) => g in w.l1 && w.l1[g].apiCallId == id && w.l1[g].InFlight() && w.l1[g].token == w.hub[id]
       case _ => false
  }

  ghost predicate TokenOk(w: World, t: TokenId)
    requires t in w.issued
  {
    w.issued[t] in w.l1 && w.l1[w.issued[t]].token == t && w.l1[w.issued[t]].stage >= REGISTERED
  }

  ghost predicate RecordOk(w: World, id: Text)
    requires id in w.store.byId
  {
    var r := w.store.byId[id];
    && id in w.flows && r.claim == w.flows[id].cell && r.uri == w.flows[id].uri
    && r.status == (if Verdict(w, r.claim).Some? then Verdict(w, r.claim).value.0 else Open)
    && r.terminalReason == (if Verdict(w, r.claim).Some? then Verdict(w, r.claim).value.1 else None)
    && r.attempts == TraceOf(w, r.claim)
  }

  ghost predicate CellsOk(w: World) {
    && (forall c :: c in w.cells ==> CellOk(w, c))
    && w.wins.Keys <= w.cells.Keys
  }

  ghost predicate L0sOk(w: World) {
    forall g :: g in w.l0 ==> L0Ok(w, g)
  }

  ghost predicate L1sOk(w: World) {
    forall g :: g in w.l1 ==> L1Ok(w, g)
  }

  ghost predicate RegistryOk(w: World) {
    && (forall id :: id in w.hub ==> HubOk(w, id))
    && (forall t :: t in w.issued ==> TokenOk(w, t))
    && w.kills.found <= w.issued.Keys
    && w.kills.cancelled <= w.kills.found
  }

  ghost predicate FlowsOk(w: World) {
    (forall id :: id in w.flows ==> FlowOk(w, id)) && w.store.linkIndex.Keys <= w.linked
  }

  ghost predicate RecordsOk(w: World) {
    forall id :: id in w.store.byId ==> RecordOk(w, id)
  }

  ghost predicate Safe(w: World) {
    && FlowStates.Consistent(w.store)
    && FlowsOk(w)
    && CellsOk(w)
    && L0sOk(w)
    && L1sOk(w)
    && RegistryOk(w)
    && RecordsOk(w)
  }

  // ---- what a store call leaves of the fields the guards care about ---------

  ghost predicate SameGuarded(r: FlowRecord, r': FlowRecord) {
    && r'.claim == r.claim && r'.uri == r.uri && r'.attempts == r.attempts
    && r'.status == r.status && r'.terminalReason == r.terminalReason
  }

  lemma OrdinaryCallKeepsGuarded(s: FlowState, op: Op, quota: nat, id: Text)
    requires FlowStates.Consistent(s) && id in Apply(s, op, quota).byId
    requires op.EditOp? ==> !op.edit.FinalizeEdit? && !op.edit.AttemptsEdit?
    requires op.OpenOp? ==> CapScalar(op.args.apiCallId) != id
    ensures id in s.byId && SameGuarded(s.byId[id], Apply(s, op, quota).byId[id])
  {
    hide FlowStates.Consistent;
    ApplyStep(s, op, quota);
    assert StepOf(s, op, Apply(s, op, quota), id);
    if Target(s, op) == Some(id) {
      var p := FlowStates.Prune(s, op.now);
      PruneCarries(s, op.now);
      EditsKeepIdentity(EditOf(op), p.byId[id]);
    }
  }

  lemma OpenedRecord(s: FlowState, op: Op, quota: nat)
    requires FlowStates.Consistent(s) && op.OpenOp? && CapScalar(op.args.apiCallId) in Apply(s, op, quota).byId
    ensures var r := Apply(s, op, quota).byId[CapScalar(op.args.apiCallId)];
            && r.claim == op.cell && r.uri == CapScalar(op.args.uri) && r.status == Open
            && r.terminalReason == None && r.attempts == []
  {
    hide FlowStates.Consistent;
    ApplyStep(s, op, quota);
    assert StepOf(s, op, Apply(s, op, quota), CapScalar(op.args.apiCallId));
  }

  /** A guard's own edit reaches its own record or nothing. */
  lemma GuardEdit(s: FlowState, key: Text, e: Edit, now: nat, quota: nat, id: Text)
    requires FlowStates.Consistent(s) && key !in s.linkIndex && !e.LinkEdit?
    requires id in Apply(s, EditOp(key, e, now), quota).byId
    ensures id in s.byId
    ensures var r, r' := s.byId[id], Apply(s, EditOp(key, e, now), quota).byId[id];
            if id != key then SameGuarded(r, r')
            else && r'.claim == r.claim && r'.uri == r.uri
                 && r'.status == (if e.FinalizeEdit? then e.status else r.status)
                 && r'.terminalReason == (if e.FinalizeEdit? then Or(e.reason, r.terminalReason) else r.terminalReason)
                 && r'.attempts == (if e.AttemptsEdit? && e.attempts != [] then e.attempts else r.attempts)
  {
    hide FlowStates.Consistent;
    var op := EditOp(key, e, now);
    ApplyStep(s, op, quota);
    PruneCarries(s, now);
    assert StepOf(s, op, Apply(s, op, quota), id);
    if Target(s, op) == Some(id) {
      assert id == key;
      EditsKeepIdentity(e, FlowStates.Prune(s, now).byId[id]);
    }
    if id == key && Target(s, op) != Some(id) {
      KeyIsTarget(s, key, e, now, quota);
    }
  }

  lemma KeyIsTarget(s: FlowState, key: Text, e: Edit, now: nat, quota: nat)
    requires FlowStates.Consistent(s) && key in Apply(s, EditOp(key, e, now), quota).byId
    ensures Target(s, EditOp(key, e, now)) == Some(key) || NothingToRecord(e)
  {
    hide FlowStates.Consistent;
    var p := FlowStates.Prune(s, now);
    if !NothingToRecord(e) {
      PruneCarries(s, now);
      EffectExactly(p, EditOp(key, e, now));
      if key !in p.byId {
        CapsCarry(Effect(p, EditOp(key, e, now)), quota);
        FlowStates.UpdateConsistent(p, key, e);
      }
    }
  }
}
