/** Each step of the protocol keeps it safe. The invariant is a conjunction over
    cells, guards, registry entries and records. A step is described by the one
    guard it moves; what it leaves of every other entry is proved once per kind of
    entry, and each step then answers for its own guard's entries only. */
module GuardSteps {
  import opened ScalarCap
  import opened FlowRecords
  import FlowStates
  import opened GuardWorld
  import opened GuardInvariant

  ghost predicate SameIds(w: World, w': World) {
    w'.flows == w.flows && w'.owner == w.owner && w'.linked == w.linked
  }

  /** The store is as it was, or one guard edited its own record. */
  ghost predicate StoreOwn(w: World, w': World, own: Text) {
    && FlowStates.Consistent(w'.store)
    && w'.store.linkIndex.Keys <= w.linked
    && (forall id :: id in w'.store.byId ==> id in w.store.byId)
    && (forall id :: id in w'.store.byId && id != own ==> SameGuarded(w.store.byId[id], w'.store.byId[id]))
  }

  // ---- a holding engine guard moves on --------------------------------------

  /** Guard `g`, which holds its cell, moves to a later stage. It may finalize the
      cell, and register or release its own kill token. */
  ghost predicate HolderMoves(w: World, w': World, g: GuardId) {
    && g in w.l1 && w.l1[g].stage >= CLAIMED
    && SameIds(w, w') && w'.l0 == w.l0 && w'.holder == w.holder && w'.kills == w.kills
    && g in w'.l1 && w'.l1 == w.l1[g := w'.l1[g]]
    && var was, next := w.l1[g], w'.l1[g];
    && next.apiCallId == was.apiCallId && next.cell == was.cell && next.endpoint == was.endpoint
    && next.stage >= was.stage
    && (was.stage >= REGISTERED ==> next.token == was.token)
    && was.cell in w.cells
    && (w'.cells == w.cells || (w.cells[was.cell] == ClaimedL1 && w'.cells == w.cells[was.cell := Finalized]))
    && (w'.wins == w.wins || w'.wins == w.wins[was.cell := Count(w'.wins, was.cell)])
    && (forall id :: id != was.apiCallId ==> (id in w'.hub <==> id in w.hub))
    && (forall id :: id != was.apiCallId && id in w.hub ==> w'.hub[id] == w.hub[id])
    && (w'.issued == w.issued
        || (next.token !in w.issued && next.stage == REGISTERED && w'.issued == w.issued[next.token := g]))
    && StoreOwn(w, w', was.apiCallId)
  }

  lemma HolderMovesCell(w: World, w': World, g: GuardId, c: CellId)
    requires HolderMoves(w, w', g) && L1Ok(w, g) && c in w.cells && CellOk(w, c) && c != w.l1[g].cell
    ensures CellOk(w', c)
  {
  }

  lemma HolderMovesL0(w: World, w': World, g: GuardId, x: GuardId)
    requires HolderMoves(w, w', g) && x in w.l0 && L0Ok(w, x)
    ensures L0Ok(w', x)
  {
  }

  lemma HolderMovesL1(w: World, w': World, g: GuardId, x: GuardId)
    requires HolderMoves(w, w', g) && L1Ok(w, g) && x in w.l1 && x != g && L1Ok(w, x)
    ensures L1Ok(w', x)
  {
    assert w'.l1[x] == w.l1[x];
    assert w.l1[x].InFlight() ==> w.l1[x].apiCallId != w.l1[g].apiCallId;
  }

  lemma HolderMovesHub(w: World, w': World, g: GuardId, id: Text)
    requires HolderMoves(w, w', g) && id in w.hub && HubOk(w, id) && id != w.l1[g].apiCallId
    ensures id in w'.hub && HubOk(w', id)
  {
  }

  lemma HolderMovesToken(w: World, w': World, g: GuardId, t: TokenId)
    requires HolderMoves(w, w', g) && t in w.issued && TokenOk(w, t)
    ensures TokenOk(w', t)
  {
  }

  lemma HolderMovesRecord(w: World, w': World, g: GuardId, id: Text)
    requires HolderMoves(w, w', g) && L1Ok(w, g) && id in w'.store.byId && id != w.l1[g].apiCallId
    requires RecordOk(w, id) && FlowOk(w, id) && CellOk(w, w.flows[id].cell) && FlowOk(w, w.l1[g].apiCallId)
    ensures RecordOk(w', id)
  {
    var c := w.flows[id].cell;
    assert c != w.l1[g].cell;
    HolderElsewhere(w, w', g, c);
  }

  /** What another cell's holder has written is not touched. */
  lemma HolderElsewhere(w: World, w': World, g: GuardId, c: CellId)
    requires HolderMoves(w, w', g) && c in w.cells && CellOk(w, c) && c != w.l1[g].cell
    ensures Verdict(w', c) == Verdict(w, c) && TraceOf(w', c) == TraceOf(w, c)
  {
    assert w.holder[c].ByL1? ==> w.holder[c].l1 != g;
  }

  lemma HolderMovesFlow(w: World, w': World, g: GuardId, id: Text)
    requires HolderMoves(w, w', g) && id in w.flows && FlowOk(w, id)
    ensures FlowOk(w', id)
  {
  }

  /** A holding guard's step is safe once its own entries are. */
  lemma HolderMovesSafely(w: World, w': World, g: GuardId)
    requires Safe(w) && HolderMoves(w, w', g)
    requires L1Ok(w', g) && w'.wins.Keys <= w'.cells.Keys
    requires w.l1[g].cell in w'.cells && CellOk(w', w.l1[g].cell)
    requires w.l1[g].apiCallId in w'.hub ==> HubOk(w', w.l1[g].apiCallId)
    requires w'.issued != w.issued ==> TokenOk(w', w'.l1[g].token)
    requires w.l1[g].apiCallId in w'.store.byId ==> RecordOk(w', w.l1[g].apiCallId)
    ensures Safe(w')
  {
    hide FlowStates.Consistent, FlowOk, CellOk, L0Ok, L1Ok, HubOk, TokenOk, RecordOk;
    forall id | id in w'.flows ensures FlowOk(w', id) { HolderMovesFlow(w, w', g, id); }
    forall c | c in w'.cells ensures CellOk(w', c) {
      if c != w.l1[g].cell { HolderMovesCell(w, w', g, c); }
    }
    forall x | x in w'.l0 ensures L0Ok(w', x) { HolderMovesL0(w, w', g, x); }
    forall x | x in w'.l1 ensures L1Ok(w', x) { if x != g { HolderMovesL1(w, w', g, x); } }
    forall id | id in w'.hub ensures HubOk(w', id) {
      if id != w.l1[g].apiCallId { HolderMovesHub(w, w', g, id); }
    }
    forall t | t in w'.issued ensures TokenOk(w', t) {
      if t in w.issued { HolderMovesToken(w, w', g, t); }
    }
    GuardsFlowOk(w, g);
    forall id | id in w'.store.byId ensures RecordOk(w', id) {
      if id != w.l1[g].apiCallId {
        RecordsCell(w, id);
        HolderMovesRecord(w, w', g, id);
      }
    }
  }

  lemma GuardsFlowOk(w: World, g: GuardId)
    requires Safe(w) && g in w.l1
    ensures L1Ok(w, g) && w.l1[g].apiCallId in w.flows && FlowOk(w, w.l1[g].apiCallId) && CellOk(w, w.l1[g].cell)
  {
    hide FlowStates.Consistent, RecordsOk, RegistryOk, L0sOk;
    assert L1Ok(w, g);
  }

  lemma RecordsCell(w: World, id: Text)
    requires FlowsOk(w) && CellsOk(w) && RecordsOk(w) && id in w.store.byId
    ensures RecordOk(w, id) && id in w.flows && FlowOk(w, id)
    ensures w.flows[id].cell in w.cells && CellOk(w, w.flows[id].cell)
    ensures GuardsFlow(w, id, w.store.byId[id].claim) && w.store.byId[id].uri == w.flows[id].uri
  {
    assert RecordOk(w, id);
    assert FlowOk(w, id);
    assert CellOk(w, w.flows[id].cell);
  }

  // ---- a middleware guard appears, loses, or stamps ---------------------------

  /** Only middleware guard `g` changes, and not in whether it holds its cell. */
  ghost predicate L0Changes(w: World, w': World, g: GuardId) {
    && SameIds(w, w') && w'.cells == w.cells && w'.holder == w.holder && w'.wins == w.wins
    && w'.l1 == w.l1 && w'.hub == w.hub && w'.issued == w.issued && w'.kills == w.kills
    && g in w'.l0 && w'.l0 == w.l0[g := w'.l0[g]]
    && (if g in w.l0 then w'.l0[g].cell == w.l0[g].cell && w'.l0[g].Won() == w.l0[g].Won() else !w'.l0[g].Won())
    && StoreOwn(w, w', w'.l0[g].apiCallId)
  }

  lemma L0ChangesCell(w: World, w': World, g: GuardId, c: CellId)
    requires L0Changes(w, w', g) && c in w.cells && CellOk(w, c)
    ensures CellOk(w', c)
  {
  }

  lemma L0ChangesRecord(w: World, w': World, g: GuardId, id: Text)
    requires L0Changes(w, w', g) && id in w'.store.byId && RecordOk(w, id)
    requires w.flows[id].cell in w.cells && CellOk(w, w.flows[id].cell)
        && SameGuarded(w.store.byId[id], w'.store.byId[id])
    requires w.holder[w.flows[id].cell] == ByL0(g) ==> g in w.l0 && (w'.l0[g].stage == w.l0[g].stage)
    ensures RecordOk(w', id)
  {
  }

  lemma L0ChangesSafely(w: World, w': World, g: GuardId)
    requires Safe(w) && L0Changes(w, w', g) && L0Ok(w', g) && w'.l0[g].apiCallId in w.flows
    requires w'.l0[g].apiCallId in w'.store.byId ==> RecordOk(w', w'.l0[g].apiCallId)
    ensures Safe(w')
  {
    hide FlowStates.Consistent, FlowOk, CellOk, L0Ok, L1Ok, HubOk, TokenOk, RecordOk;
    forall id | id in w'.flows ensures FlowOk(w', id) { SameIdsFlow(w, w', id); }
    forall c | c in w'.cells ensures CellOk(w', c) { L0ChangesCell(w, w', g, c); }
    forall x | x in w'.l0 ensures L0Ok(w', x) { if x != g { UntouchedL0(w, w', x); } }
    forall x | x in w'.l1 ensures L1Ok(w', x) { UntouchedL1(w, w', x); }
    forall id | id in w'.hub ensures HubOk(w', id) { UntouchedHub(w, w', id); }
    forall t | t in w'.issued ensures TokenOk(w', t) { UntouchedToken(w, w', t); }
    forall id | id in w'.store.byId ensures RecordOk(w', id) {
      if id != w'.l0[g].apiCallId {
        RecordsCell(w, id);
        L0ChangesOtherRecord(w, w', g, id);
      }
    }
  }

  lemma L0ChangesOtherRecord(w: World, w': World, g: GuardId, id: Text)
    requires L0Changes(w, w', g) && L0Ok(w', g) && id in w'.store.byId && id != w'.l0[g].apiCallId
    requires RecordOk(w, id) && FlowOk(w, id) && CellOk(w, w.flows[id].cell)
    requires w'.l0[g].apiCallId in w.flows && FlowsOk(w)
    ensures RecordOk(w', id)
  {
    assert FlowOk(w, w'.l0[g].apiCallId);
    assert w.flows[id].cell != w'.l0[g].cell;
    L0ChangesRecord(w, w', g, id);
  }

  lemma SameIdsFlow(w: World, w': World, id: Text)
    requires SameIds(w, w') && w.cells.Keys <= w'.cells.Keys && id in w.flows && FlowOk(w, id)
    ensures FlowOk(w', id)
  {
  }

  lemma UntouchedL0(w: World, w': World, x: GuardId)
    requires w'.flows == w.flows && w'.cells == w.cells && w'.holder == w.holder
    requires x in w.l0 && x in w'.l0 && w'.l0[x] == w.l0[x] && L0Ok(w, x)
    ensures L0Ok(w', x)
  {
  }

  lemma UntouchedL1(w: World, w': World, x: GuardId)
    requires w'.flows == w.flows && w'.cells == w.cells && w'.holder == w.holder
    requires w'.hub == w.hub && w'.issued == w.issued
    requires x in w.l1 && x in w'.l1 && w'.l1[x] == w.l1[x] && L1Ok(w, x)
    ensures L1Ok(w', x)
  {
  }

  lemma UntouchedHub(w: World, w': World, id: Text)
    requires w'.flows == w.flows && w'.holder == w.holder && w'.hub == w.hub
    requires forall x :: x in w.l1 && w.l1[x].stage >= CLAIMED ==> x in w'.l1 && w'.l1[x] == w.l1[x]
    requires id in w.hub && HubOk(w, id)
    ensures HubOk(w', id)
  {
  }

  lemma UntouchedToken(w: World, w': World, t: TokenId)
    requires w'.issued == w.issued
    requires forall x :: x in w.l1 && w.l1[x].stage >= CLAIMED ==> x in w'.l1 && w'.l1[x] == w.l1[x]
    requires t in w.issued && TokenOk(w, t)
    ensures TokenOk(w', t)
  {
  }

  // ---- an engine guard reads a claim, or loses it -----------------------------

  /** Only engine guard `g` changes, and it holds no cell before or after. */
  ghost predicate L1Idles(w: World, w': World, g: GuardId) {
    && SameIds(w, w') && w'.cells == w.cells && w'.holder == w.holder && w'.wins == w.wins && w'.store == w.store
    && w'.l0 == w.l0 && w'.hub == w.hub && w'.issued == w.issued && w'.kills == w.kills
    && g in w'.l1 && w'.l1 == w.l1[g := w'.l1[g]] && w'.l1[g].stage < CLAIMED
    && (g in w.l1 ==> w.l1[g].stage < CLAIMED)
  }

  lemma L1IdlesCell(w: World, w': World, g: GuardId, c: CellId)
    requires L1Idles(w, w', g) && c in w.cells && CellOk(w, c)
    ensures CellOk(w', c)
  {
  }

  lemma L1IdlesRecord(w: World, w': World, g: GuardId, id: Text)
    requires L1Idles(w, w', g) && id in w.store.byId && RecordOk(w, id)
    ensures RecordOk(w', id)
  {
  }

  lemma L1IdlesSafely(w: World, w': World, g: GuardId)
    requires Safe(w) && L1Idles(w, w', g) && L1Ok(w', g)
    ensures Safe(w')
  {
    hide FlowStates.Consistent, FlowOk, CellOk, L0Ok, L1Ok, HubOk, TokenOk, RecordOk;
    forall id | id in w'.flows ensures FlowOk(w', id) { SameIdsFlow(w, w', id); }
    forall c | c in w'.cells ensures CellOk(w', c) { L1IdlesCell(w, w', g, c); }
    forall x | x in w'.l0 ensures L0Ok(w', x) { UntouchedL0(w, w', x); }
    forall x | x in w'.l1 ensures L1Ok(w', x) { if x != g { UntouchedL1(w, w', x); } }
    forall id | id in w'.hub ensures HubOk(w', id) { UntouchedHub(w, w', id); }
    forall t | t in w'.issued ensures TokenOk(w', t) { UntouchedToken(w, w', t); }
    forall id | id in w'.store.byId ensures RecordOk(w', id) { L1IdlesRecord(w, w', g, id); }
  }

  // ---- a guard takes an open cell ---------------------------------------------

  /** A guard wins the exchange on the open cell `c`; `taker` says which one. */
  ghost predicate Takes(w: World, w': World, c: CellId, taker: Holder) {
    && SameIds(w, w') && w'.store == w.store && w'.hub == w.hub && w'.issued == w.issued && w'.kills == w.kills
    && c in w.cells && w.cells[c] == OpenL0 && c in w'.cells && w'.cells[c] != OpenL0
    && w'.cells == w.cells[c := w'.cells[c]] && w'.holder == w.holder[c := taker]
    && (w'.wins == w.wins || w'.wins == w.wins[c := Count(w'.wins, c)])
    && match taker
       case Nobody => false
       case ByL0(g) =>
         && w'.l1 == w.l1 && g in w.l0 && g in w'.l0 && w'.l0 == w.l0[g := w'.l0[g]]
         && w.l0[g].cell == w'.l0[g].cell == c && !w.l0[g].Won() && w'.l0[g].stage == Winning
       case ByL1(g) =>
         && w'.l0 == w.l0 && g in w.l1 && g in w'.l1 && w'.l1 == w.l1[g := w'.l1[g]]
         && w.l1[g].cell == w'.l1[g].cell == c && w.l1[g].stage == READ && w'.l1[g].stage == CLAIMED
  }

  lemma TakesCell(w: World, w': World, c: CellId, taker: Holder, x: CellId)
    requires Takes(w, w', c, taker) && x in w.cells && CellOk(w, x) && x != c
    ensures CellOk(w', x)
  {
  }

  lemma TakesL0(w: World, w': World, c: CellId, taker: Holder, x: GuardId)
    requires Takes(w, w', c, taker) && x in w.l0 && L0Ok(w, x) && CellOk(w, c)
    ensures taker == ByL0(x) || L0Ok(w', x)
  {
  }

  lemma TakesL1(w: World, w': World, c: CellId, taker: Holder, x: GuardId)
    requires Takes(w, w', c, taker) && x in w.l1 && L1Ok(w, x) && CellOk(w, c)
    ensures taker == ByL1(x) || L1Ok(w', x)
  {
    if taker != ByL1(x) { assert w'.l1[x] == w.l1[x]; }
  }

  lemma TakesHub(w: World, w': World, c: CellId, taker: Holder, id: Text)
    requires Takes(w, w', c, taker) && id in w.hub && HubOk(w, id) && CellOk(w, c)
    ensures HubOk(w', id)
  {
  }

  lemma TakesToken(w: World, w': World, c: CellId, taker: Holder, t: TokenId)
    requires Takes(w, w', c, taker) && t in w.issued && TokenOk(w, t)
    ensures TokenOk(w', t)
  {
  }

  lemma TakesRecord(w: World, w': World, c: CellId, taker: Holder, id: Text)
    requires Takes(w, w', c, taker) && id in w.store.byId && RecordOk(w, id)
    requires CellOk(w, c) && w.flows[id].cell in w.cells && CellOk(w, w.flows[id].cell)
    ensures RecordOk(w', id)
  {
  }

  lemma TakesSafely(w: World, w': World, c: CellId, taker: Holder)
    requires Safe(w) && Takes(w, w', c, taker)
    requires CellOk(w', c) && w'.wins.Keys <= w'.cells.Keys
    requires taker.ByL0? ==> L0Ok(w', taker.l0)
    requires taker.ByL1? ==> L1Ok(w', taker.l1)
    ensures Safe(w')
  {
    hide FlowStates.Consistent, FlowOk, CellOk, L0Ok, L1Ok, HubOk, TokenOk, RecordOk;
    forall id | id in w'.flows ensures FlowOk(w', id) { SameIdsFlow(w, w', id); }
    forall x | x in w'.cells ensures CellOk(w', x) { if x != c { TakesCell(w, w', c, taker, x); } }
    forall x | x in w'.l0 ensures L0Ok(w', x) { TakesL0(w, w', c, taker, x); }
    forall x | x in w'.l1 ensures L1Ok(w', x) { TakesL1(w, w', c, taker, x); }
    forall id | id in w'.hub ensures HubOk(w', id) { TakesHub(w, w', c, taker, id); }
    forall t | t in w'.issued ensures TokenOk(w', t) { TakesToken(w, w', c, taker, t); }
    forall id | id in w'.store.byId ensures RecordOk(w', id) {
      RecordsCell(w, id);
      TakesRecord(w, w', c, taker, id);
    }
  }
}
