/** The guards as objects: the shared claim cells, the kill-token registry, the
    middleware guard and the engine guard, each updated in place. A guard's method
    runs its steps without interruption; the lemma at the end says that this is one
    interleaving of the protocol. */
module GuardObjects {
  import opened Base
  import opened ScalarCap
  import opened FlowRecords
  import FlowStates
  import opened FlowStores
  import opened DashboardStore
  import opened GuardWorld

  type FlowState = FlowStates.FlowState

  /** The atomics behind every claim, by address. */
  class ClaimCells {
    var cells: map<CellId, Claim>

    constructor ()
      ensures cells == map[]
    {
      cells := map[];
    }

    method Allocate(cell: CellId)
      requires cell !in cells
      modifies this
      ensures cells == old(cells)[cell := OpenL0]
    {
      cells := cells[cell := OpenL0];
    }

    method CompareExchange(cell: CellId, current: Claim, next: Claim) returns (won: bool)
      requires cell in cells
      modifies this
      ensures won <==> old(cells[cell]) == current
      ensures cells == if won then old(cells)[cell := next] else old(cells)
    {
      won := cells[cell] == current;
      if won {
        cells := cells[cell := next];
      }
    }
  }

  class AbortHub {
    const enabled: bool
    var handles: map<Text, TokenId>
    var cancelled: set<TokenId>

    constructor (enabled: bool)
      ensures this.enabled == enabled && handles == map[] && cancelled == {}
    {
      this.enabled, handles, cancelled := enabled, map[], {};
    }

    method Register(apiCallId: Text, token: TokenId)
      modifies this`handles
      ensures handles == if enabled then old(handles)[apiCallId := token] else old(handles)
    {
      if enabled {
        handles := handles[apiCallId := token];
      }
    }

    method Remove(apiCallId: Text)
      modifies this`handles
      ensures handles == if enabled then old(handles) - {apiCallId} else old(handles)
    {
      if enabled {
        handles := handles - {apiCallId};
      }
    }

    method Abort(apiCallId: Text) returns (found: bool)
      modifies this`cancelled
      ensures found <==> enabled && apiCallId in handles
      ensures cancelled == if found then old(cancelled) + {handles[apiCallId]} else old(cancelled)
    {
      if !enabled || apiCallId !in handles {
        return false;
      }
      cancelled := cancelled + {handles[apiCallId]};
      found := true;
    }

    method LiveLen() returns (n: nat)
      ensures n == if enabled then |handles| else 0
    {
      n := if enabled then |handles| else 0;
    }
  }

  class MiddlewareGuard {
    const store: DashboardFlowStore
    const claims: ClaimCells
    const apiCallId: Text
    const cell: CellId

    constructor (store: DashboardFlowStore, claims: ClaimCells, apiCallId: Text, cell: CellId)
      ensures this.store == store && this.claims == claims && this.apiCallId == apiCallId && this.cell == cell
    {
      this.store, this.claims, this.apiCallId, this.cell := store, claims, apiCallId, cell;
    }

    method Drop(now: nat, elapsed: nat)
      requires cell in claims.cells
      modifies claims, store.state
      ensures claims.cells == if old(claims.cells[cell]) == OpenL0 then old(claims.cells)[cell := Finalized]
          else old(claims.cells)
      ensures store.state.Model() ==
                if old(claims.cells[cell]) == OpenL0
                then store.Step(old(store.state.Model()), EditOp(apiCallId, UnhandledEdit(now, elapsed), now))
                else old(store.state.Model())
    {
      var won := claims.CompareExchange(cell, OpenL0, Finalized);
      if won {
        store.Finalize(apiCallId, Failed, Some(UNHANDLED), None, now, elapsed);
      }
    }
  }

  function UnhandledEdit(now: nat, elapsed: nat): Edit {
    FinalizeEdit(now, elapsed, Failed, CapOption(Some(UNHANDLED)), None)
  }

  /** The clock readings of one finalize: of its three locked calls, and the age of
      the record. */
  datatype Clock = Clock(finalizeMs: nat, elapsedMs: nat, attemptsMs: nat, responseMs: nat)

  /** The store after an uninterrupted finalize. */
  ghost function FinalizedStore(
    store: DashboardFlowStore, s: FlowState, id: Text, status: FlowStatus, reason: Option<Text>,
    readings: Readings, body: Option<ResponseBody>, clock: Clock): FlowState
  {
    var serving := Or(readings.provider, readings.route);
    var stamped := store.Step(s, EditOp(id,
      FinalizeEdit(clock.finalizeMs, clock.elapsedMs, status, CapOption(reason), CapOption(serving)),
          clock.finalizeMs));
    var traced := store.Step(stamped,
        EditOp(id, AttemptsEdit(readings.attempts, readings.firstByte), clock.attemptsMs));
    if store.responseCaptureEnabled && body.Some?
    then store.Step(traced, EditOp(id, ResponseEdit(body.value), clock.responseMs)) else traced
  }

  class TelemetryGuard {
    const store: DashboardFlowStore
    const claims: ClaimCells
    const hub: AbortHub
    const apiCallId: Text
    const cell: CellId
    const endpoint: Text
    const abortToken: TokenId
    var terminalMetrics: Option<TerminalMetrics>

    constructor (store: DashboardFlowStore, claims: ClaimCells, hub: AbortHub, apiCallId: Text, cell: CellId,
                 endpoint: Text, abortToken: TokenId)
      ensures this.store == store && this.claims == claims && this.hub == hub && this.apiCallId == apiCallId
      ensures this.cell == cell && this.endpoint == endpoint && this.abortToken == abortToken
      ensures terminalMetrics == None
    {
      this.store, this.claims, this.hub, this.apiCallId := store, claims, hub, apiCallId;
      this.cell, this.endpoint, this.abortToken, terminalMetrics := cell, endpoint, abortToken, None;
    }

    method Finalize(
        status: FlowStatus, reason: Option<Text>, readings: Readings, body: Option<ResponseBody>, clock: Clock)
      requires cell in claims.cells
      modifies this, claims, hub`handles, store.state
      ensures var wins := old(claims.cells[cell]) == ClaimedL1;
        && claims.cells == (if wins then old(claims.cells)[cell := Finalized] else old(claims.cells))
        && terminalMetrics == (if wins then Some(MetricsOf(endpoint, readings)) else old(terminalMetrics))
        && store.state.Model() == (if wins
            then FinalizedStore(store, old(store.state.Model()), apiCallId, status, reason, readings, body, clock)
                                   else old(store.state.Model()))
        && hub.handles == (if wins && hub.enabled then old(hub.handles) - {apiCallId} else old(hub.handles))
    {
      var won := claims.CompareExchange(cell, ClaimedL1, Finalized);
      if won {
        var serving := Or(readings.provider, readings.route);
        terminalMetrics := Some(TerminalMetrics(readings.modelServed, endpoint, serving, readings.usage,
            readings.attempts));
        store.Finalize(apiCallId, status, reason, serving, clock.finalizeMs, clock.elapsedMs);
        store.RecordAttempts(apiCallId, readings.attempts, readings.firstByte, clock.attemptsMs);
        store.SetUpstreamResponse(apiCallId, body, clock.responseMs);
        hub.Remove(apiCallId);
      }
    }

    /** Dropping an unfinalized guard is a finalize as cancelled; after a finalize it
        changes nothing. */
    method Drop(readings: Readings, body: Option<ResponseBody>, clock: Clock)
      requires cell in claims.cells
      modifies this, claims, hub`handles, store.state
      ensures old(claims.cells[cell]) != ClaimedL1 ==>
                && claims.cells == old(claims.cells) && terminalMetrics == old(terminalMetrics)
                && store.state.Model() == old(store.state.Model()) && hub.handles == old(hub.handles)
      ensures old(claims.cells[cell]) == ClaimedL1 ==>
                && claims.cells == old(claims.cells)[cell := Finalized]
                && store.state.Model() == FinalizedStore(store, old(store.state.Model()), apiCallId, Cancelled,
                    Some(DROPPED), readings, body, clock)
                && terminalMetrics == Some(MetricsOf(endpoint, readings))
                && hub.handles == (if hub.enabled then old(hub.handles) - {apiCallId} else old(hub.handles))
    {
      Finalize(Cancelled, Some(DROPPED), readings, body, clock);
    }
  }

  /** Open a flow: a fresh claim cell, and the record that shares it. */
  method OpenFlow(store: DashboardFlowStore, claims: ClaimCells, cell: CellId, args: OpenArgs, now: nat)
    requires cell !in claims.cells
    modifies claims, store.state
    ensures claims.cells == if store.enabled then old(claims.cells)[cell := OpenL0] else old(claims.cells)
    ensures store.state.Model() == store.Step(old(store.state.Model()), OpenOp(cell, args, now))
  {
    if store.enabled {
      claims.Allocate(cell);
    }
    store.Open(cell, args, now);
  }

  /** Mint the middleware guard of a live record. */
  method MintMiddlewareGuard(store: DashboardFlowStore, claims: ClaimCells, apiCallId: Text)
    returns (guard: Option<MiddlewareGuard>)
    ensures guard.Some? <==> store.enabled && apiCallId in store.state.byId
    ensures guard.Some? ==> fresh(guard.value) && guard.value.store == store && guard.value.claims == claims
                            && guard.value.apiCallId == apiCallId
                                && guard.value.cell == store.state.byId[apiCallId].claim
  {
    if !store.enabled || apiCallId !in store.state.byId {
      return None;
    }
    var minted := new MiddlewareGuard(store, claims, apiCallId, store.state.byId[apiCallId].claim);
    guard := Some(minted);
  }

  /** Mint the engine guard: read the claim and the route, win the claiming
      exchange, register the kill token. */
  method MintEngineGuard(store: DashboardFlowStore, claims: ClaimCells, hub: AbortHub, apiCallId: Text, token: TokenId)
    returns (guard: Option<TelemetryGuard>)
    requires apiCallId in store.state.byId ==> store.state.byId[apiCallId].claim in claims.cells
    modifies claims, hub`handles
    ensures guard.Some? <==> store.enabled && apiCallId in store.state.byId
                             && old(claims.cells[store.state.byId[apiCallId].claim]) == OpenL0
    ensures guard.None? ==> claims.cells == old(claims.cells) && hub.handles == old(hub.handles)
    ensures guard.Some? ==>
              && fresh(guard.value) && guard.value.apiCallId == apiCallId && guard.value.abortToken == token
              && guard.value.cell == store.state.byId[apiCallId].claim
              && guard.value.endpoint == store.state.byId[apiCallId].uri
              && claims.cells == old(claims.cells)[guard.value.cell := ClaimedL1]
              && hub.handles == (if hub.enabled then old(hub.handles)[apiCallId := token] else old(hub.handles))
  {
    if !store.enabled || apiCallId !in store.state.byId {
      return None;
    }
    var record := store.state.byId[apiCallId];
    var won := claims.CompareExchange(record.claim, OpenL0, ClaimedL1);
    if !won {
      return None;
    }
    hub.Register(apiCallId, token);
    var minted := new TelemetryGuard(store, claims, hub, apiCallId, record.claim, record.uri, token);
    guard := Some(minted);
  }

  // ---- the methods are interleavings of the protocol ---------------------------

  function FinalizeActions(
    g: GuardId, status: FlowStatus, reason: Option<Text>, readings: Readings, body: Option<ResponseBody>,
        clock: Clock): seq<Action>
  {
    [FinalizeL1(g, status, reason), MeasureL1(g, readings), StampL1(g, clock.finalizeMs, clock.elapsedMs),
     TraceL1(g, clock.attemptsMs), AnswerL1(g, body, clock.responseMs), ReleaseL1(g)]
  }

  lemma AfterCons(w: World, a: Action, rest: seq<Action>, quota: nat)
    requires Enabled(w, a) && Possible(Next(w, a, quota), rest, quota)
    ensures Possible(w, [a] + rest, quota) && After(w, [a] + rest, quota) == After(Next(w, a, quota), rest, quota)
  {
    assert ([a] + rest)[1..] == rest;
  }

  lemma TwoSteps(w: World, a: Action, b: Action, quota: nat)
    requires Enabled(w, a) && Enabled(Next(w, a, quota), b)
    ensures Possible(w, [a, b], quota) && After(w, [a, b], quota) == Next(Next(w, a, quota), b, quota)
  {
    hide Next, Enabled;
    AfterCons(Next(w, a, quota), b, [], quota);
    assert [b] + [] == [b];
    AfterCons(w, a, [b], quota);
    assert [a] + [b] == [a, b];
  }

  lemma ThreeSteps(w: World, a: Action, b: Action, c: Action, quota: nat)
    requires Enabled(w, a) && Enabled(Next(w, a, quota), b) && Enabled(Next(Next(w, a, quota), b, quota), c)
    ensures Possible(w, [a, b, c], quota)
    ensures After(w, [a, b, c], quota) == Next(Next(Next(w, a, quota), b, quota), c, quota)
  {
    hide Next, Enabled;
    TwoSteps(Next(w, a, quota), b, c, quota);
    AfterCons(w, a, [b, c], quota);
    assert [a] + [b, c] == [a, b, c];
  }

  /** The world after the four steps that follow the metrics. */
  function Stamped(w: World, g: GuardId, clock: Clock, quota: nat): World
    requires AtL1(w, g, MEASURED)
  {
    StoreEdited(L1Advanced(w, g), w.l1[g].apiCallId, VerdictEdit(w.l1[g], clock.finalizeMs, clock.elapsedMs),
                clock.finalizeMs, quota)
  }

  function Traced(w: World, g: GuardId, clock: Clock, quota: nat): World
    requires AtL1(w, g, STAMPED)
  {
    StoreEdited(L1Advanced(w, g), w.l1[g].apiCallId, TraceEdit(w.l1[g]), clock.attemptsMs, quota)
  }

  function Closed(w: World, g: GuardId, body: Option<ResponseBody>, clock: Clock, quota: nat): World
    requires AtL1(w, g, TRACED)
  {
    L1Released(L1Answered(w, g, body, clock.responseMs, quota), g)
  }

  lemma FourSteps(w: World, a: Action, b: Action, c: Action, d: Action, quota: nat)
    requires Enabled(w, a) && Enabled(Next(w, a, quota), b) && Enabled(Next(Next(w, a, quota), b, quota), c)
    requires Enabled(Next(Next(Next(w, a, quota), b, quota), c, quota), d)
    ensures Possible(w, [a, b, c, d], quota)
    ensures After(w, [a, b, c, d], quota) == Next(Next(Next(Next(w, a, quota), b, quota), c, quota), d, quota)
  {
    hide Next, Enabled;
    ThreeSteps(Next(w, a, quota), b, c, d, quota);
    AfterCons(w, a, [b, c, d], quota);
    assert [a] + [b, c, d] == [a, b, c, d];
  }

  lemma StampStep(w: World, g: GuardId, clock: Clock, quota: nat)
    requires AtL1(w, g, MEASURED)
    ensures var a := StampL1(g, clock.finalizeMs, clock.elapsedMs);
            Enabled(w, a) && Next(w, a, quota) == Stamped(w, g, clock, quota)
                && AtL1(Stamped(w, g, clock, quota), g, STAMPED)
  {
    hide Apply, CapScalar, VerdictEdit;
  }

  lemma TraceStep(w: World, g: GuardId, clock: Clock, quota: nat)
    requires AtL1(w, g, STAMPED)
    ensures var a := TraceL1(g, clock.attemptsMs);
            Enabled(w, a) && Next(w, a, quota) == Traced(w, g, clock, quota)
                && AtL1(Traced(w, g, clock, quota), g, TRACED)
  {
    hide Apply, CapScalar, TraceEdit;
  }

  lemma CloseSteps(w: World, g: GuardId, body: Option<ResponseBody>, clock: Clock, quota: nat)
    requires AtL1(w, g, TRACED)
    ensures var a := AnswerL1(g, body, clock.responseMs);
            && Enabled(w, a) && Enabled(Next(w, a, quota), ReleaseL1(g))
            && Next(Next(w, a, quota), ReleaseL1(g), quota) == Closed(w, g, body, clock, quota)
  {
    hide Apply, CapScalar;
  }

  lemma StampToRelease(w: World, g: GuardId, body: Option<ResponseBody>, clock: Clock, quota: nat)
    requires AtL1(w, g, MEASURED)
    ensures AtL1(Stamped(w, g, clock, quota), g, STAMPED)
    ensures AtL1(Traced(Stamped(w, g, clock, quota), g, clock, quota), g, TRACED)
    ensures var rest := [StampL1(g, clock.finalizeMs, clock.elapsedMs), TraceL1(g, clock.attemptsMs),
                         AnswerL1(g, body, clock.responseMs), ReleaseL1(g)];
            && Possible(w, rest, quota)
            && After(w, rest, quota)
                == Closed(Traced(Stamped(w, g, clock, quota), g, clock, quota), g, body, clock, quota)
  {
    StampStep(w, g, clock, quota);
    hide AtL1, Next, Enabled, Stamped, Traced, Closed, Possible, After;
    TraceStep(Stamped(w, g, clock, quota), g, clock, quota);
    CloseSteps(Traced(Stamped(w, g, clock, quota), g, clock, quota), g, body, clock, quota);
    FourSteps(w, StampL1(g, clock.finalizeMs, clock.elapsedMs), TraceL1(g, clock.attemptsMs),
              AnswerL1(g, body, clock.responseMs), ReleaseL1(g), quota);
  }

  lemma {:induction false} RunsJoin(w: World, a: seq<Action>, b: seq<Action>, quota: nat)
    requires Possible(w, a, quota) && Possible(After(w, a, quota), b, quota)
    ensures Possible(w, a + b, quota) && After(w, a + b, quota) == After(After(w, a, quota), b, quota)
    decreases |a|
  {
    hide Next, Enabled;
    if a == [] {
      assert a + b == b;
    } else {
      RunsJoin(Next(w, a[0], quota), a[1..], b, quota);
      assert (a + b)[1..] == a[1..] + b;
    }
  }

  /** The world after a winning exchange and the metrics. */
  function Measured(w: World, g: GuardId, status: FlowStatus, reason: Option<Text>, readings: Readings): World
    requires AtL1(w, g, REGISTERED) && w.l1[g].cell in w.cells
  {
    L1Measured(TryFinalize(w, g, status, reason), g, readings)
  }

  lemma WinSteps(w: World, g: GuardId, status: FlowStatus, reason: Option<Text>, readings: Readings, quota: nat)
    requires AtL1(w, g, REGISTERED) && !w.l1[g].dropped && status != Open
    requires w.l1[g].cell in w.cells && w.cells[w.l1[g].cell] == ClaimedL1
    ensures var a, b := FinalizeL1(g, status, reason), MeasureL1(g, readings);
            && Enabled(w, a) && Enabled(Next(w, a, quota), b)
            && Next(Next(w, a, quota), b, quota) == Measured(w, g, status, reason, readings)
    ensures var w', was := Measured(w, g, status, reason, readings), w.l1[g];
            && w'.store == w.store && w'.hub == w.hub && w'.cells == w.cells[was.cell := Finalized]
            && AtL1(w', g, MEASURED)
            && w'.l1[g] == was.(stage := MEASURED, status := status, reason := reason, readings := readings,
                                metrics := Some(MetricsOf(was.endpoint, readings)))
  {
  }

  /** The world at the end of an uninterrupted finalize. */
  function AtTheEnd(measured: World, g: GuardId, body: Option<ResponseBody>, clock: Clock, quota: nat): World
    requires AtL1(measured, g, MEASURED)
  {
    StampToRelease(measured, g, body, clock, quota);
    Closed(Traced(Stamped(measured, g, clock, quota), g, clock, quota), g, body, clock, quota)
  }

  lemma FinalizeRuns(
    w: World, g: GuardId, status: FlowStatus, reason: Option<Text>, readings: Readings, body: Option<ResponseBody>,
    clock: Clock, quota: nat)
    requires AtL1(w, g, REGISTERED) && !w.l1[g].dropped && status != Open
    requires w.l1[g].cell in w.cells && w.cells[w.l1[g].cell] == ClaimedL1
    ensures AtL1(Measured(w, g, status, reason, readings), g, MEASURED)
    ensures var actions := FinalizeActions(g, status, reason, readings, body, clock);
            && Possible(w, actions, quota)
            && After(w, actions, quota) == AtTheEnd(Measured(w, g, status, reason, readings), g, body, clock, quota)
  {
    var measured := Measured(w, g, status, reason, readings);
    WinSteps(w, g, status, reason, readings, quota);
    hide Next, Enabled, Measured, Possible, After;
    TwoSteps(w, FinalizeL1(g, status, reason), MeasureL1(g, readings), quota);
    StampToRelease(measured, g, body, clock, quota);
    hide AtL1;
    var two := [FinalizeL1(g, status, reason), MeasureL1(g, readings)];
    var rest := [StampL1(g, clock.finalizeMs, clock.elapsedMs), TraceL1(g, clock.attemptsMs),
                 AnswerL1(g, body, clock.responseMs), ReleaseL1(g)];
    RunsJoin(w, two, rest, quota);
    assert two + rest == FinalizeActions(g, status, reason, readings, body, clock);
  }

  /** The object's finalize on an enabled store is the protocol's six steps run
      without interruption: same cells, same store, same registry, same metrics. */
  lemma UninterruptedFinalize(
    w: World, g: GuardId, status: FlowStatus, reason: Option<Text>, readings: Readings, body: Option<ResponseBody>,
    clock: Clock, store: DashboardFlowStore)
    requires AtL1(w, g, REGISTERED) && !w.l1[g].dropped && status != Open
    requires w.l1[g].cell in w.cells && w.cells[w.l1[g].cell] == ClaimedL1
    requires store.enabled && (body.Some? ==> store.responseCaptureEnabled)
    ensures var actions := FinalizeActions(g, status, reason, readings, body, clock);
            && Possible(w, actions, store.summaryQuotaBytes)
            && var w' := After(w, actions, store.summaryQuotaBytes);
               && w'.cells == w.cells[w.l1[g].cell := Finalized]
               && w'.store == FinalizedStore(store, w.store, w.l1[g].apiCallId, status, reason, readings, body, clock)
               && w'.hub == w.hub - {w.l1[g].apiCallId}
               && AtL1(w', g, RELEASED) && w'.l1[g].metrics == Some(MetricsOf(w.l1[g].endpoint, readings))
  {
    var quota := store.summaryQuotaBytes;
    var measured := Measured(w, g, status, reason, readings);
    FinalizeRuns(w, g, status, reason, readings, body, clock, quota);
    WinSteps(w, g, status, reason, readings, quota);
    hide Next, Enabled, Measured, Possible, After, Apply, CapScalar;
    hide FinalizedStore, VerdictEdit, TraceEdit, Stamped, Traced, Closed, FinalizeActions;
  }

  /** Minting an engine guard is its three steps run without interruption. */
  lemma UninterruptedMint(w: World, g: GuardId, id: Text, token: TokenId, quota: nat)
    requires g !in w.l1 && id in w.store.byId && token !in w.issued
    requires w.store.byId[id].claim in w.cells && w.cells[w.store.byId[id].claim] == OpenL0
    ensures var actions := [ReadL1(g, id), ClaimL1(g), RegisterL1(g, token)];
            && Possible(w, actions, quota)
            && var w', cell := After(w, actions, quota), w.store.byId[id].claim;
               && w'.store == w.store && w'.cells == w.cells[cell := ClaimedL1] && w'.hub == w.hub[id := token]
               && AtL1(w', g, REGISTERED) && w'.l1[g].apiCallId == id && w'.l1[g].cell == cell
               && w'.l1[g].endpoint == w.store.byId[id].uri && w'.l1[g].token == token
  {
    assert Next(L1Read(w, g, id), ClaimL1(g), quota) == L1Claimed(L1Read(w, g, id), g);
    ThreeSteps(w, ReadL1(g, id), ClaimL1(g), RegisterL1(g, token), quota);
    hide Possible, After;
  }

  /** When the cell is not open, minting stops at its second step, which changes
      nothing but the loser. */
  lemma LosingMint(w: World, g: GuardId, id: Text, quota: nat)
    requires g !in w.l1 && id in w.store.byId
    requires w.store.byId[id].claim in w.cells && w.cells[w.store.byId[id].claim] != OpenL0
    ensures var actions := [ReadL1(g, id), ClaimL1(g)];
            && Possible(w, actions, quota)
            && var w' := After(w, actions, quota);
               && w'.store == w.store && w'.cells == w.cells && w'.hub == w.hub && AtL1(w', g, LOST)
  {
    assert Next(w, ReadL1(g, id), quota) == L1Read(w, g, id);
    TwoSteps(w, ReadL1(g, id), ClaimL1(g), quota);
    hide Possible, After;
  }

  /** Dropping a middleware guard is its exchange and, if that wins, its stamp. */
  lemma UninterruptedOrphanDrop(w: World, g: GuardId, now: nat, elapsed: nat, store: DashboardFlowStore)
    requires g in w.l0 && w.l0[g].stage == Held && w.l0[g].cell in w.cells && store.enabled
    ensures var guard := w.l0[g];
            var wins := w.cells[guard.cell] == OpenL0;
            var actions := if wins then [DropL0(g), StampL0(g, now, elapsed)] else [DropL0(g)];
            && Possible(w, actions, store.summaryQuotaBytes)
            && var w' := After(w, actions, store.summaryQuotaBytes);
               && w'.cells == (if wins then w.cells[guard.cell := Finalized] else w.cells)
               && w'.store == (if wins
                   then store.Step(w.store, EditOp(guard.apiCallId, UnhandledEdit(now, elapsed), now)) else w.store)
               && w'.hub == w.hub && g in w'.l0 && w'.l0[g].stage == Gone(wins)
  {
    hide Apply, CapScalar;
    var quota := store.summaryQuotaBytes;
    var dropped := L0Dropped(w, g);
    if w.cells[w.l0[g].cell] == OpenL0 {
      TwoSteps(w, DropL0(g), StampL0(g, now, elapsed), quota);
    } else {
      AfterCons(w, DropL0(g), [], quota);
      assert [DropL0(g)] + [] == [DropL0(g)];
    }
  }
}
