/** The protocol is safe in every reachable state, under every interleaving. */
module GuardSafety {
  import opened Base
  import opened ScalarCap
  import opened FlowRecords
  import FlowStates
  import opened FlowStores
  import opened LinkJoin
  import opened GuardWorld
  import opened GuardInvariant
  import opened GuardSteps

  // ---- store calls by other threads ------------------------------------------

  lemma CallStoreFacts(w: World, op: Op, quota: nat)
    requires Safe(w)
    ensures FlowStates.Consistent(Apply(w.store, op, quota))
    ensures Apply(w.store, op, quota).linkIndex.Keys <= w.linked + LinkedBy(op)
  {
    ApplyStep(w.store, op, quota);
    ApplyUsesKnownIds(w.store, op, quota);
  }

  lemma OpenFlow(w: World, op: Op, quota: nat, id: Text)
    requires op.OpenOp? && CallAllowed(w, op)
    ensures id in w.flows && FlowOk(w, id) ==> FlowOk(Called(w, op, quota), id)
    ensures FlowOk(Called(w, op, quota), CapScalar(op.args.apiCallId))
  {
    hide CapScalar, Apply;
  }

  lemma OpenCell(w: World, op: Op, quota: nat, c: CellId)
    requires op.OpenOp? && CallAllowed(w, op) && w.wins.Keys <= w.cells.Keys
    ensures c in w.cells && CellOk(w, c) ==> CellOk(Called(w, op, quota), c)
    ensures CellOk(Called(w, op, quota), op.cell)
  {
    hide CapScalar, Apply;
    assert op.cell !in w.wins;
  }

  lemma OpenEntries(w: World, op: Op, quota: nat, w': World)
    requires op.OpenOp? && CallAllowed(w, op) && w' == Called(w, op, quota)
    requires CellsOk(w)
    ensures forall id :: id in w.flows && FlowOk(w, id) ==> FlowOk(w', id)
    ensures forall c :: c in w.cells && CellOk(w, c) ==> CellOk(w', c)
    ensures FlowOk(w', CapScalar(op.args.apiCallId)) && CellOk(w', op.cell)
  {
    OpenFlow(w, op, quota, []);
    OpenCell(w, op, quota, op.cell);
    hide CapScalar, Apply, FlowOk, CellOk;
    forall id | id in w.flows && FlowOk(w, id) ensures FlowOk(w', id) { OpenFlow(w, op, quota, id); }
    forall c | c in w.cells && CellOk(w, c) ensures CellOk(w', c) { OpenCell(w, op, quota, c); }
  }

  lemma OpenGuard(w: World, op: Op, quota: nat, g: GuardId)
    requires op.OpenOp? && CallAllowed(w, op)
    ensures g in w.l0 && L0Ok(w, g) ==> L0Ok(Called(w, op, quota), g)
    ensures g in w.l1 && L1Ok(w, g) ==> L1Ok(Called(w, op, quota), g)
  {
    hide CapScalar, Apply;
  }

  lemma OpenGuardEntries(w: World, op: Op, quota: nat, w': World)
    requires op.OpenOp? && CallAllowed(w, op) && w' == Called(w, op, quota)
    requires FlowsOk(w)
    ensures forall g :: g in w.l0 && L0Ok(w, g) ==> L0Ok(w', g)
    ensures forall g :: g in w.l1 && L1Ok(w, g) ==> L1Ok(w', g)
    ensures forall id :: id in w.hub && HubOk(w, id) ==> HubOk(w', id)
    ensures forall t :: t in w.issued && TokenOk(w, t) ==> TokenOk(w', t)
  {
    assert w'.l0 == w.l0 && w'.hub == w.hub && w'.issued == w.issued;
    forall id | id in w.hub && HubOk(w, id) ensures FlowOk(w, id) {}
    hide CapScalar, Apply, Called, L0Ok, L1Ok, HubOk, TokenOk, FlowOk, FlowsOk;
    forall g | g in w.l0 && L0Ok(w, g) ensures L0Ok(w', g) { OpenGuard(w, op, quota, g); }
    forall g | g in w.l1 && L1Ok(w, g) ensures L1Ok(w', g) { OpenGuard(w, op, quota, g); }
    forall id | id in w.hub && HubOk(w, id) ensures HubOk(w', id) { }
    forall t | t in w.issued && TokenOk(w, t) ensures TokenOk(w', t) { }
  }

  lemma OpenRecord(w: World, op: Op, quota: nat, id: Text)
    requires op.OpenOp? && CallAllowed(w, op) && FlowStates.Consistent(w.store)
    requires id in Apply(w.store, op, quota).byId
    requires id in w.store.byId ==> RecordOk(w, id) && w.flows[id].cell in w.cells
    ensures RecordOk(Called(w, op, quota), id)
  {
    hide FlowStates.Consistent, CapScalar, Apply;
    if id == CapScalar(op.args.apiCallId) {
      OpenedRecord(w.store, op, quota);
    } else {
      OrdinaryCallKeepsGuarded(w.store, op, quota, id);
    }
  }

  lemma OpenKeeps(w: World, op: Op, quota: nat)
    requires Safe(w) && op.OpenOp? && CallAllowed(w, op)
    ensures Safe(Called(w, op, quota))
  {
    hide FlowStates.Consistent, FlowOk, CellOk, L0Ok, L1Ok, HubOk, TokenOk, RecordOk, CapScalar, Apply;
    var w' := Called(w, op, quota);
    CallStoreFacts(w, op, quota);
    OpenEntries(w, op, quota, w');
    OpenGuardEntries(w, op, quota, w');
    forall id | id in w'.store.byId ensures RecordOk(w', id) {
      if id in w.store.byId { RecordsCell(w, id); }
      OpenRecord(w, op, quota, id);
    }
  }

  lemma OtherCallRecord(w: World, op: Op, quota: nat, id: Text)
    requires !op.OpenOp? && CallAllowed(w, op) && FlowStates.Consistent(w.store)
    requires id in Apply(w.store, op, quota).byId && (id in w.store.byId ==> RecordOk(w, id))
    ensures RecordOk(Called(w, op, quota), id)
  {
    hide FlowStates.Consistent, CapScalar, Apply;
    OrdinaryCallKeepsGuarded(w.store, op, quota, id);
  }

  lemma OtherCallFlow(w: World, op: Op, quota: nat, id: Text)
    requires !op.OpenOp? && CallAllowed(w, op) && id in w.flows && FlowOk(w, id)
    ensures FlowOk(Called(w, op, quota), id)
  {
    hide CapScalar, Apply;
  }

  lemma OtherCallCell(w: World, op: Op, quota: nat, c: CellId)
    requires !op.OpenOp? && c in w.cells && CellOk(w, c)
    ensures CellOk(Called(w, op, quota), c)
  {
    hide CapScalar, Apply;
  }

  lemma OtherCallKeeps(w: World, op: Op, quota: nat)
    requires Safe(w) && !op.OpenOp? && CallAllowed(w, op)
    ensures Safe(Called(w, op, quota))
  {
    hide FlowStates.Consistent, FlowOk, CellOk, L0Ok, L1Ok, HubOk, TokenOk, RecordOk, CapScalar, Apply, CallAllowed;
    var w' := Called(w, op, quota);
    CallStoreFacts(w, op, quota);
    forall id | id in w'.flows ensures FlowOk(w', id) { OtherCallFlow(w, op, quota, id); }
    forall c | c in w'.cells ensures CellOk(w', c) { OtherCallCell(w, op, quota, c); }
    forall x | x in w'.l0 ensures L0Ok(w', x) { UntouchedL0(w, w', x); }
    forall x | x in w'.l1 ensures L1Ok(w', x) { UntouchedL1(w, w', x); }
    forall id | id in w'.hub ensures HubOk(w', id) { UntouchedHub(w, w', id); }
    forall t | t in w'.issued ensures TokenOk(w', t) { UntouchedToken(w, w', t); }
    forall id | id in w'.store.byId ensures RecordOk(w', id) { OtherCallRecord(w, op, quota, id); }
  }

  // ---- the middleware guard ---------------------------------------------------

  lemma L0MintedKeeps(w: World, g: GuardId, id: Text)
    requires Safe(w) && g !in w.l0 && id in w.store.byId
    ensures Safe(L0Minted(w, g, id))
  {
    var w' := L0Minted(w, g, id);
    RecordsCell(w, id);
    L0MintedEntries(w, g, id);
    L0ChangesSafely(w, w', g);
  }

  lemma L0MintedEntries(w: World, g: GuardId, id: Text)
    requires g !in w.l0 && id in w.store.byId && RecordOk(w, id) && StoreOwn(w, w, id)
    requires GuardsFlow(w, id, w.store.byId[id].claim) && CellOk(w, w.store.byId[id].claim)
    ensures var w' := L0Minted(w, g, id); L0Changes(w, w', g) && L0Ok(w', g) && RecordOk(w', id)
  {
    hide FlowStates.Consistent;
  }

  lemma L0DroppedKeeps(w: World, g: GuardId)
    requires Safe(w) && g in w.l0 && w.l0[g].stage == Held && w.l0[g].cell in w.cells
    ensures Safe(L0Dropped(w, g))
  {
    var w' := L0Dropped(w, g);
    var c := w.l0[g].cell;
    L0Entries(w, g);
    if w.cells[c] == OpenL0 {
      L0TakesEntries(w, g);
      TakesSafely(w, w', c, ByL0(g));
    } else {
      L0LosesEntries(w, g);
      if w.l0[g].apiCallId in w.store.byId {
        RecordsCell(w, w.l0[g].apiCallId);
        L0ChangesRecord(w, w', g, w.l0[g].apiCallId);
      }
      L0ChangesSafely(w, w', g);
    }
  }

  lemma L0Entries(w: World, g: GuardId)
    requires Safe(w) && g in w.l0
    ensures L0Ok(w, g) && CellOk(w, w.l0[g].cell) && w.l0[g].apiCallId in w.flows && FlowOk(w, w.l0[g].apiCallId)
    ensures w.wins.Keys <= w.cells.Keys && w.store.linkIndex.Keys <= w.linked && w.l0[g].apiCallId !in w.store.linkIndex
  {
    hide FlowStates.Consistent, RecordsOk, RegistryOk, L1sOk;
    assert L0Ok(w, g);
    assert FlowOk(w, w.l0[g].apiCallId);
  }

  lemma L0TakesEntries(w: World, g: GuardId)
    requires g in w.l0 && L0Ok(w, g) && CellOk(w, w.l0[g].cell) && w.l0[g].stage == Held
    requires w.cells[w.l0[g].cell] == OpenL0 && w.wins.Keys <= w.cells.Keys
    ensures var w' := L0Dropped(w, g);
            && Takes(w, w', w.l0[g].cell, ByL0(g)) && CellOk(w', w.l0[g].cell) && L0Ok(w', g)
            && w'.wins.Keys <= w'.cells.Keys
  {
  }

  lemma L0LosesEntries(w: World, g: GuardId)
    requires g in w.l0 && L0Ok(w, g) && w.l0[g].stage == Held && StoreOwn(w, w, w.l0[g].apiCallId)
    requires w.cells[w.l0[g].cell] != OpenL0
    ensures L0Changes(w, L0Dropped(w, g), g) && L0Ok(L0Dropped(w, g), g)
    ensures w.holder[w.l0[g].cell] != ByL0(g)
  {
  }

  /** The edits a guard sends to the store reach its own record only. */
  lemma OwnEdit(w: World, id: Text, e: Edit, now: nat, quota: nat)
    requires Safe(w) && id !in w.store.linkIndex && !e.LinkEdit?
    ensures StoreOwn(w, StoreEdited(w, id, e, now, quota), id)
  {
    hide FlowStates.Consistent, FlowsOk, CellsOk, L0sOk, L1sOk, RecordsOk;
    CallStoreFacts(w, EditOp(id, e, now), quota);
    forall x | x in Apply(w.store, EditOp(id, e, now), quota).byId
      ensures x in w.store.byId
          && (x != id ==> SameGuarded(w.store.byId[x], Apply(w.store, EditOp(id, e, now), quota).byId[x]))
    {
      GuardEdit(w.store, id, e, now, quota, x);
    }
  }

  lemma L0StampedRecord(w: World, g: GuardId, now: nat, elapsed: nat, quota: nat)
    requires g in w.l0 && w.l0[g].stage == Winning && L0Ok(w, g) && FlowStates.Consistent(w.store)
    requires w.l0[g].apiCallId !in w.store.linkIndex
    requires w.l0[g].apiCallId in L0Stamped(w, g, now, elapsed, quota).store.byId
    requires w.l0[g].apiCallId in w.store.byId ==> RecordOk(w, w.l0[g].apiCallId)
    ensures RecordOk(L0Stamped(w, g, now, elapsed, quota), w.l0[g].apiCallId)
  {
    hide FlowStates.Consistent, Apply, CapScalar;
    var e := FinalizeEdit(now, elapsed, Failed, CapOption(Some(UNHANDLED)), None);
    GuardEdit(w.store, w.l0[g].apiCallId, e, now, quota, w.l0[g].apiCallId);
  }

  lemma L0StampedEntries(w: World, g: GuardId, now: nat, elapsed: nat, quota: nat)
    requires g in w.l0 && w.l0[g].stage == Winning && L0Ok(w, g)
    requires StoreOwn(w, L0Stamped(w, g, now, elapsed, quota), w.l0[g].apiCallId)
    ensures var w' := L0Stamped(w, g, now, elapsed, quota); L0Changes(w, w', g) && L0Ok(w', g)
  {
    hide FlowStates.Consistent, Apply;
  }

  lemma L0StampedKeeps(w: World, g: GuardId, now: nat, elapsed: nat, quota: nat)
    requires Safe(w) && g in w.l0 && w.l0[g].stage == Winning
    ensures Safe(L0Stamped(w, g, now, elapsed, quota))
  {
    hide FlowStates.Consistent, FlowOk, CellOk, L0Ok, L1Ok, HubOk, TokenOk, RecordOk, Apply, CapScalar;
    var w' := L0Stamped(w, g, now, elapsed, quota);
    var id := w.l0[g].apiCallId;
    L0Entries(w, g);
    OwnEdit(w, id, FinalizeEdit(now, elapsed, Failed, CapOption(Some(UNHANDLED)), None), now, quota);
    L0StampedEntries(w, g, now, elapsed, quota);
    if id in w'.store.byId { L0StampedRecord(w, g, now, elapsed, quota); }
    L0ChangesSafely(w, w', g);
  }

  // ---- the engine guard -------------------------------------------------------

  lemma L1ReadEntries(w: World, g: GuardId, id: Text)
    requires g !in w.l1 && id in w.store.byId && w.store.byId[id].uri == (if id in w.flows then w.flows[id].uri else [])
    requires GuardsFlow(w, id, w.store.byId[id].claim) && CellOk(w, w.store.byId[id].claim)
    ensures var w' := L1Read(w, g, id); L1Idles(w, w', g) && L1Ok(w', g)
  {
  }

  lemma L1ReadKeeps(w: World, g: GuardId, id: Text)
    requires Safe(w) && g !in w.l1 && id in w.store.byId
    ensures Safe(L1Read(w, g, id))
  {
    hide FlowStates.Consistent, FlowOk, CellOk, L0Ok, L1Ok, HubOk, TokenOk, RecordOk;
    RecordsCell(w, id);
    L1ReadEntries(w, g, id);
    L1IdlesSafely(w, L1Read(w, g, id), g);
  }

  lemma L1ClaimedEntries(w: World, g: GuardId)
    requires g in w.l1 && L1Ok(w, g) && CellOk(w, w.l1[g].cell) && w.l1[g].stage == READ
    requires w.wins.Keys <= w.cells.Keys
    ensures var w' := L1Claimed(w, g);
            if w.cells[w.l1[g].cell] == OpenL0
            then Takes(w, w', w.l1[g].cell, ByL1(g)) && CellOk(w', w.l1[g].cell) && L1Ok(w', g)
                && w'.wins.Keys <= w'.cells.Keys
            else L1Idles(w, w', g) && L1Ok(w', g)
  {
  }

  lemma L1ClaimedKeeps(w: World, g: GuardId)
    requires Safe(w) && g in w.l1 && w.l1[g].stage == READ && w.l1[g].cell in w.cells
    ensures Safe(L1Claimed(w, g))
  {
    GuardsFlowOk(w, g);
    hide FlowStates.Consistent, FlowOk, CellOk, L0Ok, L1Ok, HubOk, TokenOk, RecordOk;
    L1ClaimedEntries(w, g);
    if w.cells[w.l1[g].cell] == OpenL0 {
      TakesSafely(w, L1Claimed(w, g), w.l1[g].cell, ByL1(g));
    } else {
      L1IdlesSafely(w, L1Claimed(w, g), g);
    }
  }

  /** A holding guard's entries after a step of its own that leaves the store alone. */
  ghost predicate OwnEntries(w: World, w': World, g: GuardId)
    requires g in w.l1
  {
    && HolderMoves(w, w', g) && L1Ok(w', g) && w'.wins.Keys <= w'.cells.Keys
    && w.l1[g].cell in w'.cells && CellOk(w', w.l1[g].cell)
    && (w.l1[g].apiCallId in w'.hub ==> HubOk(w', w.l1[g].apiCallId))
    && (w'.issued != w.issued ==> TokenOk(w', w'.l1[g].token))
    && (w.l1[g].apiCallId in w'.store.byId ==> RecordOk(w', w.l1[g].apiCallId))
  }

  /** What a holding guard's step may rely on. */
  ghost predicate OwnReady(w: World, g: GuardId)
    requires g in w.l1
  {
    && L1Ok(w, g) && w.l1[g].stage >= CLAIMED && CellOk(w, w.l1[g].cell) && w.wins.Keys <= w.cells.Keys
    && (w.l1[g].apiCallId in w.hub ==> HubOk(w, w.l1[g].apiCallId))
    && (w.l1[g].apiCallId in w.store.byId ==> RecordOk(w, w.l1[g].apiCallId))
  }

  lemma Ready(w: World, g: GuardId)
    requires Safe(w) && g in w.l1 && w.l1[g].stage >= CLAIMED
    ensures OwnReady(w, g) && StoreOwn(w, w, w.l1[g].apiCallId) && w.l1[g].apiCallId !in w.store.linkIndex
  {
    GuardsFlowOk(w, g);
  }

  lemma L1RegisteredMoves(w: World, g: GuardId, token: TokenId)
    requires g in w.l1 && OwnReady(w, g) && StoreOwn(w, w, w.l1[g].apiCallId)
    requires w.l1[g].stage == CLAIMED && token !in w.issued
    ensures HolderMoves(w, L1Registered(w, g, token), g)
  {
    hide FlowStates.Consistent, HubOk, RecordOk;
  }

  lemma L1RegisteredEntries(w: World, g: GuardId, token: TokenId)
    requires g in w.l1 && OwnReady(w, g) && StoreOwn(w, w, w.l1[g].apiCallId)
    requires w.l1[g].stage == CLAIMED && token !in w.issued
    ensures OwnEntries(w, L1Registered(w, g, token), g)
  {
    L1RegisteredMoves(w, g, token);
    hide FlowStates.Consistent, HolderMoves, StoreOwn;
  }

  lemma TryFinalizeEntries(w: World, g: GuardId, status: FlowStatus, reason: Option<Text>)
    requires g in w.l1 && OwnReady(w, g) && StoreOwn(w, w, w.l1[g].apiCallId)
    requires w.l1[g].stage >= REGISTERED && status != Open && w.cells[w.l1[g].cell] == ClaimedL1
    ensures OwnEntries(w, TryFinalize(w, g, status, reason), g)
  {
    hide FlowStates.Consistent;
  }

  lemma L1DroppedMoves(w: World, g: GuardId)
    requires g in w.l1 && OwnReady(w, g) && StoreOwn(w, w, w.l1[g].apiCallId)
    requires w.l1[g].stage == REGISTERED || w.l1[g].stage == RELEASED
    ensures HolderMoves(w, L1Dropped(w, g), g)
  {
    hide FlowStates.Consistent, HubOk, RecordOk;
  }

  lemma L1DroppedEntries(w: World, g: GuardId)
    requires g in w.l1 && OwnReady(w, g) && StoreOwn(w, w, w.l1[g].apiCallId)
    requires w.l1[g].stage == REGISTERED || w.l1[g].stage == RELEASED
    ensures OwnEntries(w, L1Dropped(w, g), g)
  {
    L1DroppedMoves(w, g);
    hide FlowStates.Consistent, HolderMoves, StoreOwn;
  }

  lemma L1MeasuredEntries(w: World, g: GuardId, readings: Readings)
    requires g in w.l1 && OwnReady(w, g) && StoreOwn(w, w, w.l1[g].apiCallId) && w.l1[g].stage == WON
    ensures OwnEntries(w, L1Measured(w, g, readings), g)
  {
    hide FlowStates.Consistent;
  }

  lemma L1ReleasedEntries(w: World, g: GuardId)
    requires g in w.l1 && OwnReady(w, g) && StoreOwn(w, w, w.l1[g].apiCallId) && w.l1[g].stage == ANSWERED
    ensures OwnEntries(w, L1Released(w, g), g)
  {
    hide FlowStates.Consistent;
  }

  /** What a winning guard writes to its record next. */
  predicate NextEdit(guard: L1Guard, e: Edit) {
    if guard.stage == MEASURED then e.FinalizeEdit? && e.status == guard.status && e.reason == CapOption(guard.reason)
    else if guard.stage == STAMPED then e == TraceEdit(guard)
    else guard.stage == TRACED && e.ResponseEdit?
  }

  /** The three steps that advance the guard and may edit its record. */
  lemma L1AdvancedRecord(w: World, g: GuardId, e: Edit, now: nat, quota: nat)
    requires g in w.l1 && OwnReady(w, g) && FlowStates.Consistent(w.store)
    requires w.l1[g].apiCallId !in w.store.linkIndex && !e.LinkEdit?
    requires NextEdit(w.l1[g], e)
    requires w.l1[g].apiCallId in Apply(w.store, EditOp(w.l1[g].apiCallId, e, now), quota).byId
    ensures RecordOk(StoreEdited(L1Advanced(w, g), w.l1[g].apiCallId, e, now, quota), w.l1[g].apiCallId)
  {
    hide FlowStates.Consistent, Apply, CapScalar;
    GuardEdit(w.store, w.l1[g].apiCallId, e, now, quota, w.l1[g].apiCallId);
  }

  lemma L1AdvancedEntries(w: World, w': World, g: GuardId)
    requires g in w.l1 && OwnReady(w, g) && StoreOwn(w, w', w.l1[g].apiCallId)
    requires MEASURED <= w.l1[g].stage <= TRACED && w' == L1Advanced(w, g).(store := w'.store)
    requires w.l1[g].apiCallId in w'.store.byId ==> RecordOk(w', w.l1[g].apiCallId)
    ensures OwnEntries(w, w', g)
  {
    hide FlowStates.Consistent;
  }

  lemma L1EditedKeeps(w: World, g: GuardId, e: Edit, now: nat, quota: nat)
    requires Safe(w) && g in w.l1 && !e.LinkEdit?
    requires NextEdit(w.l1[g], e)
    ensures Safe(StoreEdited(L1Advanced(w, g), w.l1[g].apiCallId, e, now, quota))
  {
    hide FlowStates.Consistent, FlowOk, CellOk, L0Ok, L1Ok, HubOk, TokenOk, RecordOk, Apply, CapScalar;
    var id := w.l1[g].apiCallId;
    var w' := StoreEdited(L1Advanced(w, g), id, e, now, quota);
    Ready(w, g);
    OwnEdit(w, id, e, now, quota);
    if id in w'.store.byId { L1AdvancedRecord(w, g, e, now, quota); }
    L1AdvancedEntries(w, w', g);
    HolderMovesSafely(w, w', g);
  }

  lemma L1AdvancedQuietlyKeeps(w: World, g: GuardId)
    requires Safe(w) && g in w.l1 && w.l1[g].stage == TRACED
    ensures Safe(L1Advanced(w, g))
  {
    hide FlowStates.Consistent, FlowOk, CellOk, L0Ok, L1Ok, HubOk, TokenOk;
    var w' := L1Advanced(w, g);
    Ready(w, g);
    L1AdvancedEntries(w, w', g);
    HolderMovesSafely(w, w', g);
  }

  lemma EntriesKeep(w: World, w': World, g: GuardId)
    requires Safe(w) && g in w.l1 && OwnEntries(w, w', g)
    ensures Safe(w')
  {
    hide FlowStates.Consistent, FlowOk, CellOk, L0Ok, L1Ok, HubOk, TokenOk, RecordOk;
    HolderMovesSafely(w, w', g);
    hide Safe;
  }

  /** Looking a token up, or cancelling one that was looked up, touches nothing else. */
  lemma KillsKeep(w: World, kills: Kills)
    requires Safe(w) && kills.found <= w.issued.Keys && kills.cancelled <= kills.found
    ensures Safe(w.(kills := kills))
  {
    hide FlowStates.Consistent, FlowOk, CellOk, L0Ok, L1Ok, HubOk, TokenOk, RecordOk;
    var w' := w.(kills := kills);
    forall x | x in w'.flows ensures FlowOk(w', x) { SameIdsFlow(w, w', x); }
    forall c | c in w'.cells ensures CellOk(w', c) { KillsCell(w, kills, c); }
    forall x | x in w'.l0 ensures L0Ok(w', x) { UntouchedL0(w, w', x); }
    forall x | x in w'.l1 ensures L1Ok(w', x) { UntouchedL1(w, w', x); }
    forall x | x in w'.hub ensures HubOk(w', x) { UntouchedHub(w, w', x); }
    forall t | t in w'.issued ensures TokenOk(w', t) { UntouchedToken(w, w', t); }
    forall x | x in w'.store.byId ensures RecordOk(w', x) { KillsRecord(w, kills, x); }
  }

  lemma KillsRecord(w: World, kills: Kills, x: Text)
    requires x in w.store.byId && RecordOk(w, x)
    ensures RecordOk(w.(kills := kills), x)
  {
  }

  lemma KillsCell(w: World, kills: Kills, c: CellId)
    requires c in w.cells && CellOk(w, c)
    ensures CellOk(w.(kills := kills), c)
  {
  }

  lemma KillsAreIssued(w: World, id: Text)
    requires Safe(w)
    ensures w.kills.found <= w.issued.Keys && w.kills.cancelled <= w.kills.found
    ensures id in w.hub ==> w.hub[id] in w.issued
  {
    hide FlowStates.Consistent, FlowsOk, CellsOk, L0sOk, RecordsOk, L1Ok, HubOk, TokenOk;
    if id in w.hub { HubTokenIssued(w, id); }
  }

  lemma AbortLooksKeeps(w: World, id: Text)
    requires Safe(w)
    ensures Safe(AbortLooked(w, id))
  {
    hide Safe;
    KillsAreIssued(w, id);
    KillsKeep(w, AbortLooked(w, id).kills);
  }

  lemma AbortCancelsKeeps(w: World, token: TokenId)
    requires Safe(w) && token in w.kills.found
    ensures Safe(AbortCancelled(w, token))
  {
    hide Safe;
    KillsAreIssued(w, []);
    KillsKeep(w, AbortCancelled(w, token).kills);
  }

  lemma HubTokenIssued(w: World, id: Text)
    requires L1sOk(w) && id in w.hub && HubOk(w, id)
    ensures w.hub[id] in w.issued
  {
    assert L1Ok(w, w.holder[w.flows[id].cell].l1);
  }

  /** Every step of every thread keeps the protocol safe. */
  lemma StepKeepsSafe(w: World, a: Action, quota: nat)
    requires Safe(w) && Enabled(w, a)
    ensures Safe(Next(w, a, quota))
  {
    hide Safe, OwnReady, StoreOwn, OwnEntries;
    match a
    case Call(op) => if op.OpenOp? { OpenKeeps(w, op, quota); } else { OtherCallKeeps(w, op, quota); }
    case MintL0(g, id) => L0MintedKeeps(w, g, id);
    case DropL0(g) => L0DroppedKeeps(w, g);
    case StampL0(g, now, elapsed) => L0StampedKeeps(w, g, now, elapsed, quota);
    case ReadL1(g, id) => L1ReadKeeps(w, g, id);
    case ClaimL1(g) => L1ClaimedKeeps(w, g);
    case RegisterL1(g, token) =>
      Ready(w, g);
      L1RegisteredEntries(w, g, token);
      EntriesKeep(w, L1Registered(w, g, token), g);
    case FinalizeL1(g, status, reason) =>
      Ready(w, g);
      if w.cells[w.l1[g].cell] == ClaimedL1 {
        TryFinalizeEntries(w, g, status, reason);
        EntriesKeep(w, TryFinalize(w, g, status, reason), g);
      }
    case DropL1(g) =>
      Ready(w, g);
      L1DroppedEntries(w, g);
      EntriesKeep(w, L1Dropped(w, g), g);
    case MeasureL1(g, readings) =>
      Ready(w, g);
      L1MeasuredEntries(w, g, readings);
      EntriesKeep(w, L1Measured(w, g, readings), g);
    case StampL1(g, now, elapsed) => L1EditedKeeps(w, g, VerdictEdit(w.l1[g], now, elapsed), now, quota);
    case TraceL1(g, now) => L1EditedKeeps(w, g, TraceEdit(w.l1[g]), now, quota);
    case AnswerL1(g, body, now) =>
      if body.Some? {
        L1EditedKeeps(w, g, ResponseEdit(body.value), now, quota);
      } else {
        L1AdvancedQuietlyKeeps(w, g);
      }
    case ReleaseL1(g) =>
      Ready(w, g);
      L1ReleasedEntries(w, g);
      EntriesKeep(w, L1Released(w, g), g);
    case AbortLooks(id) => AbortLooksKeeps(w, id);
    case AbortCancels(token) => AbortCancelsKeeps(w, token);
  }

  /** Every state any interleaving can reach is safe. */
  lemma {:induction false} EveryReachableWorldIsSafe(w: World, actions: seq<Action>, quota: nat)
    requires Safe(w) && Possible(w, actions, quota)
    ensures Safe(After(w, actions, quota))
    decreases |actions|
  {
    hide Safe;
    if actions != [] {
      StepKeepsSafe(w, actions[0], quota);
      EveryReachableWorldIsSafe(Next(w, actions[0], quota), actions[1..], quota);
    }
  }
}
