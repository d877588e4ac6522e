/** The finalisation protocol as a state machine: claim cells beside the lock, the
    middleware and engine guards that race on them, the kill-token registry, and
    the store, interleaved step by step. Each locked call and each
    compare-and-exchange is one step. */
module GuardWorld {
  import opened Base
  import opened ScalarCap
  import opened FlowRecords
  import FlowStates
  import opened FlowStores

  type FlowState = FlowStates.FlowState
  type GuardId = nat
  type TokenId = nat

  datatype Claim = OpenL0 | ClaimedL1 | Finalized

  /** `b"unhandled"` and `b"dropped"`. */
  const UNHANDLED: Text := [117, 110, 104, 97, 110, 100, 108, 101, 100]
  const DROPPED: Text := [100, 114, 111, 112, 112, 101, 100]

  /** The middleware guard: held, past a winning exchange, or gone. */
  datatype L0Stage = Held | Winning | Gone(won: bool)

  datatype L0Guard = L0Guard(apiCallId: Text, cell: CellId, stage: L0Stage)
  {
    predicate Won() { stage == Winning || stage == Gone(true) }
  }

  // The stages of an engine guard, in the order its code passes them.
  const LOST: nat := 0         // the claiming exchange failed, no guard was minted
  const READ: nat := 1         // claim and route read under the lock
  const CLAIMED: nat := 2      // the claiming exchange succeeded
  const REGISTERED: nat := 3   // kill token registered; the guard is live
  const WON: nat := 4          // a finalize call won its exchange
  const MEASURED: nat := 5     // terminal metrics written
  const STAMPED: nat := 6      // store.finalize done
  const TRACED: nat := 7       // store.record_attempts done
  const ANSWERED: nat := 8     // store.set_upstream_response done
  const RELEASED: nat := 9     // kill token removed

  /** What the winning finalize reads off the shared serving token. */
  datatype Readings = Readings(
    route: Option<Text>,
    provider: Option<Text>,
    modelServed: Option<Text>,
    usage: Option<FlowUsage>,
    attempts: seq<Attempt>,
    firstByte: Option<nat>)

  datatype TerminalMetrics = TerminalMetrics(
    modelServed: Option<Text>,
    endpoint: Text,
    upstream: Option<Text>,
    usage: Option<FlowUsage>,
    attempts: seq<Attempt>)

  function MetricsOf(endpoint: Text, readings: Readings): TerminalMetrics {
    TerminalMetrics(readings.modelServed, endpoint, Or(readings.provider, readings.route), readings.usage,
        readings.attempts)
  }

  datatype L1Guard = L1Guard(
    apiCallId: Text,
    cell: CellId,
    endpoint: Text,
    stage: nat,
    token: TokenId,
    dropped: bool,
    status: FlowStatus,
    reason: Option<Text>,
    readings: Readings,
    metrics: Option<TerminalMetrics>)
  {
    predicate InFlight() { REGISTERED <= stage <= ANSWERED }
  }

  /** A flow as opened: its claim cell and the route it came in on. */
  datatype Flow = Flow(cell: CellId, uri: Text)

  /** The kill tokens some abort has looked up, and those it has gone on to cancel. */
  datatype Kills = Kills(found: set<TokenId>, cancelled: set<TokenId>)

  /** Who moved a cell off `OpenL0`. */
  datatype Holder = Nobody | ByL0(l0: GuardId) | ByL1(l1: GuardId)

  /** The shared state, then the history the theorems speak about: every flow ever
      opened, every response id ever linked, who holds each cell, how many
      exchanges to `Finalized` succeeded on it, and which guard each token is of. */
  datatype World = World(
    store: FlowState,
    cells: map<CellId, Claim>,
    hub: map<Text, TokenId>,
    kills: Kills,
    l0: map<GuardId, L0Guard>,
    l1: map<GuardId, L1Guard>,
    flows: map<Text, Flow>,
    owner: map<CellId, Text>,
    linked: set<Text>,
    holder: map<CellId, Holder>,
    wins: map<CellId, nat>,
    issued: map<TokenId, GuardId>)

  const START :=
    World(FlowStates.EMPTY, map[], map[], Kills({}, {}), map[], map[], map[], map[], {}, map[], map[], map[])

  datatype Action =
    | Call(op: Op)                                        // any store call that is not a guard's
    | MintL0(g: GuardId, id: Text)
    | DropL0(g: GuardId)
    | StampL0(g: GuardId, now: nat, elapsed: nat)
    | ReadL1(g: GuardId, id: Text)
    | ClaimL1(g: GuardId)
    | RegisterL1(g: GuardId, token: TokenId)
    | FinalizeL1(g: GuardId, status: FlowStatus, reason: Option<Text>)
    | DropL1(g: GuardId)
    | MeasureL1(g: GuardId, readings: Readings)
    | StampL1(g: GuardId, now: nat, elapsed: nat)
    | TraceL1(g: GuardId, now: nat)
    | AnswerL1(g: GuardId, body: Option<ResponseBody>, now: nat)
    | ReleaseL1(g: GuardId)
    | AbortLooks(id: Text)                                // the lookup, under the registry's lock
    | AbortCancels(token: TokenId)                        // the cancel, after the lock is gone

  /** The calls other threads make: everything but the guards' own, with fresh
      flow ids and cells, and response ids that are nobody's flow id. */
  predicate CallAllowed(w: World, op: Op) {
    match op
    case OpenOp(cell, args, _) =>
      cell !in w.cells && CapScalar(args.apiCallId) !in w.flows && CapScalar(args.apiCallId) !in w.linked
    case LinkOp(responseId, _, _) => CapScalar(responseId) !in w.flows
    case EditOp(_, e, _) => !e.LinkEdit? && !e.FinalizeEdit? && !e.AttemptsEdit?
    case ReadOp(_) => true
  }

  predicate AtL1(w: World, g: GuardId, stage: nat) {
    g in w.l1 && w.l1[g].stage == stage
  }

  predicate Enabled(w: World, a: Action) {
    match a
    case Call(op) => CallAllowed(w, op)
    case MintL0(g, id) => g !in w.l0 && id in w.store.byId
    case DropL0(g) => g in w.l0 && w.l0[g].stage == Held && w.l0[g].cell in w.cells
    case StampL0(g, _, _) => g in w.l0 && w.l0[g].stage == Winning
    case ReadL1(g, id) => g !in w.l1 && id in w.store.byId
    case ClaimL1(g) => AtL1(w, g, READ) && w.l1[g].cell in w.cells
    case RegisterL1(g, token) => AtL1(w, g, CLAIMED) && token !in w.issued
    case FinalizeL1(g, status, _) =>
      g in w.l1 && w.l1[g].stage >= REGISTERED && !w.l1[g].dropped && w.l1[g].cell in w.cells && status != Open
    case DropL1(g) =>
      (AtL1(w, g, REGISTERED) || AtL1(w, g, RELEASED)) && !w.l1[g].dropped && w.l1[g].cell in w.cells
    case MeasureL1(g, _) => AtL1(w, g, WON)
    case StampL1(g, _, _) => AtL1(w, g, MEASURED)
    case TraceL1(g, _) => AtL1(w, g, STAMPED)
    case AnswerL1(g, _, _) => AtL1(w, g, TRACED)
    case ReleaseL1(g) => AtL1(w, g, ANSWERED)
    case AbortLooks(_) => true
    case AbortCancels(token) => token in w.kills.found
  }

  function Count(wins: map<CellId, nat>, cell: CellId): nat {
    if cell in wins then wins[cell] else 0
  }

  // ---- the effect of each step ---------------------------------------------

  function Called(w: World, op: Op, quota: nat): (w': World)
    ensures w'.kills == w.kills && w'.l1 == w.l1
  {
    var called := w.(store := Apply(w.store, op, quota));
    if op.OpenOp? then
      var id := CapScalar(op.args.apiCallId);
      called.(cells := w.cells[op.cell := OpenL0],
              flows := w.flows[id := Flow(op.cell, CapScalar(op.args.uri))],
              owner := w.owner[op.cell := id],
              holder := w.holder[op.cell := Nobody])
    else if op.LinkOp? then called.(linked := w.linked + {CapScalar(op.responseId)})
    else called
  }

  function L0Minted(w: World, g: GuardId, id: Text): (w': World)
    requires id in w.store.byId
    ensures w'.kills == w.kills && w'.l1 == w.l1
  {
    w.(l0 := w.l0[g := L0Guard(id, w.store.byId[id].claim, Held)])
  }

  /** The drop's compare-and-exchange `OpenL0 -> Finalized`. */
  function L0Dropped(w: World, g: GuardId): (w': World)
    requires g in w.l0 && w.l0[g].cell in w.cells
    ensures w'.kills == w.kills && w'.l1 == w.l1
  {
    var cell := w.l0[g].cell;
    if w.cells[cell] == OpenL0 then
      w.(cells := w.cells[cell := Finalized],
         l0 := w.l0[g := w.l0[g].(stage := Winning)],
         holder := w.holder[cell := ByL0(g)],
         wins := w.wins[cell := Count(w.wins, cell) + 1])
    else w.(l0 := w.l0[g := w.l0[g].(stage := Gone(false))])
  }

  function StoreEdited(w: World, id: Text, edit: Edit, now: nat, quota: nat): (w': World)
    ensures w'.kills == w.kills && w'.l1 == w.l1
  {
    w.(store := Apply(w.store, EditOp(id, edit, now), quota))
  }

  function L0Stamped(w: World, g: GuardId, now: nat, elapsed: nat, quota: nat): (w': World)
    requires g in w.l0
    ensures w'.kills == w.kills && w'.l1 == w.l1
  {
    StoreEdited(w.(l0 := w.l0[g := w.l0[g].(stage := Gone(true))]),
                w.l0[g].apiCallId, FinalizeEdit(now, elapsed, Failed, CapOption(Some(UNHANDLED)), None), now, quota)
  }

  const NO_READINGS := Readings(None, None, None, None, [], None)

  function L1Read(w: World, g: GuardId, id: Text): (w': World)
    requires id in w.store.byId
    ensures w'.kills == w.kills && g in w'.l1 && w'.l1 == w.l1[g := w'.l1[g]]
  {
    w.(l1 := w.l1[g := L1Guard(id, w.store.byId[id].claim, w.store.byId[id].uri, READ, 0, false,
                               Open, None, NO_READINGS, None)])
  }

  /** The claiming compare-and-exchange `OpenL0 -> ClaimedL1`. */
  function L1Claimed(w: World, g: GuardId): (w': World)
    requires g in w.l1 && w.l1[g].cell in w.cells
    ensures w'.kills == w.kills && g in w'.l1 && w'.l1 == w.l1[g := w'.l1[g]]
  {
    var cell := w.l1[g].cell;
    if w.cells[cell] == OpenL0 then
      w.(cells := w.cells[cell := ClaimedL1],
         l1 := w.l1[g := w.l1[g].(stage := CLAIMED)],
         holder := w.holder[cell := ByL1(g)])
    else w.(l1 := w.l1[g := w.l1[g].(stage := LOST)])
  }

  function L1Registered(w: World, g: GuardId, token: TokenId): (w': World)
    requires g in w.l1
    ensures w'.kills == w.kills && g in w'.l1 && w'.l1 == w.l1[g := w'.l1[g]]
  {
    w.(hub := w.hub[w.l1[g].apiCallId := token],
       l1 := w.l1[g := w.l1[g].(stage := REGISTERED, token := token)],
       issued := w.issued[token := g])
  }

  /** A finalize call's compare-and-exchange `ClaimedL1 -> Finalized`: the winner
      goes on with its status, everyone else does nothing. */
  function TryFinalize(w: World, g: GuardId, status: FlowStatus, reason: Option<Text>): (w': World)
    requires g in w.l1 && w.l1[g].cell in w.cells
    ensures w'.kills == w.kills && g in w'.l1 && w'.l1 == w.l1[g := w'.l1[g]]
  {
    var cell := w.l1[g].cell;
    if w.cells[cell] == ClaimedL1 then
      w.(cells := w.cells[cell := Finalized],
         l1 := w.l1[g := w.l1[g].(stage := WON, status := status, reason := reason)],
         wins := w.wins[cell := Count(w.wins, cell) + 1])
    else w
  }

  function L1Dropped(w: World, g: GuardId): (w': World)
    requires g in w.l1 && w.l1[g].cell in w.cells
    ensures w'.kills == w.kills && g in w'.l1 && w'.l1 == w.l1[g := w'.l1[g]]
  {
    TryFinalize(w.(l1 := w.l1[g := w.l1[g].(dropped := true)]), g, Cancelled, Some(DROPPED))
  }

  function L1Measured(w: World, g: GuardId, readings: Readings): (w': World)
    requires g in w.l1
    ensures w'.kills == w.kills && g in w'.l1 && w'.l1 == w.l1[g := w'.l1[g]]
  {
    w.(l1 := w.l1[g := w.l1[g].(stage := MEASURED, readings := readings,
                                metrics := Some(MetricsOf(w.l1[g].endpoint, readings)))])
  }

  function L1Advanced(w: World, g: GuardId): (w': World)
    requires g in w.l1
    ensures w'.kills == w.kills && g in w'.l1 && w'.l1 == w.l1[g := w'.l1[g]]
  {
    w.(l1 := w.l1[g := w.l1[g].(stage := w.l1[g].stage + 1)])
  }

  function VerdictEdit(guard: L1Guard, now: nat, elapsed: nat): Edit {
    FinalizeEdit(now, elapsed, guard.status, CapOption(guard.reason),
                 CapOption(Or(guard.readings.provider, guard.readings.route)))
  }

  function TraceEdit(guard: L1Guard): Edit {
    AttemptsEdit(guard.readings.attempts, guard.readings.firstByte)
  }

  function L1Answered(w: World, g: GuardId, body: Option<ResponseBody>, now: nat, quota: nat): (w': World)
    requires g in w.l1
    ensures w'.kills == w.kills && g in w'.l1 && w'.l1 == w.l1[g := w'.l1[g]]
  {
    if body.Some? then StoreEdited(L1Advanced(w, g), w.l1[g].apiCallId, ResponseEdit(body.value), now, quota)
    else L1Advanced(w, g)
  }

  function L1Released(w: World, g: GuardId): (w': World)
    requires g in w.l1
    ensures w'.kills == w.kills && g in w'.l1 && w'.l1 == w.l1[g := w'.l1[g]]
  {
    L1Advanced(w, g).(hub := w.hub - {w.l1[g].apiCallId})
  }

  function AbortLooked(w: World, id: Text): (w': World)
    ensures w'.l1 == w.l1 && w'.cells == w.cells
  {
    if id in w.hub then w.(kills := w.kills.(found := w.kills.found + {w.hub[id]})) else w
  }

  function AbortCancelled(w: World, token: TokenId): (w': World)
    ensures w'.l1 == w.l1 && w'.cells == w.cells
  {
    w.(kills := w.kills.(cancelled := w.kills.cancelled + {token}))
  }

  function Next(w: World, a: Action, quota: nat): World
    requires Enabled(w, a)
  {
    match a
    case Call(op) => Called(w, op, quota)
    case MintL0(g, id) => L0Minted(w, g, id)
    case DropL0(g) => L0Dropped(w, g)
    case StampL0(g, now, elapsed) => L0Stamped(w, g, now, elapsed, quota)
    case ReadL1(g, id) => L1Read(w, g, id)
    case ClaimL1(g) => L1Claimed(w, g)
    case RegisterL1(g, token) => L1Registered(w, g, token)
    case FinalizeL1(g, status, reason) => TryFinalize(w, g, status, reason)
    case DropL1(g) => L1Dropped(w, g)
    case MeasureL1(g, readings) => L1Measured(w, g, readings)
    case StampL1(g, now, elapsed) =>
      StoreEdited(L1Advanced(w, g), w.l1[g].apiCallId, VerdictEdit(w.l1[g], now, elapsed), now, quota)
    case TraceL1(g, now) => StoreEdited(L1Advanced(w, g), w.l1[g].apiCallId, TraceEdit(w.l1[g]), now, quota)
    case AnswerL1(g, body, now) => L1Answered(w, g, body, now, quota)
    case ReleaseL1(g) => L1Released(w, g)
    case AbortLooks(id) => AbortLooked(w, id)
    case AbortCancels(token) => AbortCancelled(w, token)
  }

  /** `actions` is an interleaving the program can produce from `w`. */
  ghost predicate Possible(w: World, actions: seq<Action>, quota: nat)
    decreases |actions|
  {
    actions != [] ==> Enabled(w, actions[0]) && Possible(Next(w, actions[0], quota), actions[1..], quota)
  }

  function After(w: World, actions: seq<Action>, quota: nat): World
    requires Possible(w, actions, quota)
    decreases |actions|
  {
    if actions == [] then w else After(Next(w, actions[0], quota), actions[1..], quota)
  }
}
