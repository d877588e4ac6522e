/** What safety of the protocol means: exactly-once finalisation, terminal states
    that are final, no flow left open, a leak-free kill registry, and metrics that
    do not depend on what the store retained. */
module GuardTheorems {
  import opened Base
  import opened ScalarCap
  import opened FlowRecords
  import FlowStates
  import opened FlowStores
  import LinkJoin
  import opened GuardWorld
  import opened GuardInvariant
  import opened GuardSteps
  import opened GuardSafety

  /** The states some interleaving reaches from the empty gateway. */
  ghost predicate Reachable(w: World, actions: seq<Action>, quota: nat) {
    Possible(START, actions, quota) && w == After(START, actions, quota)
  }

  lemma ReachableIsSafe(w: World, actions: seq<Action>, quota: nat)
    requires Reachable(w, actions, quota)
    ensures Safe(w)
  {
    EveryReachableWorldIsSafe(START, actions, quota);
  }

  // ---- exactly once ----------------------------------------------------------

  /** At most one exchange to `Finalized` ever succeeds on a cell. */
  lemma FinalizedAtMostOnce(w: World, actions: seq<Action>, quota: nat, c: CellId)
    requires Reachable(w, actions, quota)
    ensures Count(w.wins, c) <= 1
    ensures c in w.cells ==> (Count(w.wins, c) == 1 <==> w.cells[c] == Finalized)
  {
    ReachableIsSafe(w, actions, quota);
    if c in w.cells { assert CellOk(w, c); }
  }

  /** A cell has one winner: two winning middleware guards are the same guard, so
      are two claiming engine guards, and the two kinds exclude each other. */
  lemma OneWinnerPerCell(w: World, actions: seq<Action>, quota: nat, c: CellId)
    requires Reachable(w, actions, quota)
    ensures forall g, h :: WonL0(w, g, c) && WonL0(w, h, c) ==> g == h
    ensures forall g, h :: ClaimedBy(w, g, c) && ClaimedBy(w, h, c) ==> g == h
    ensures forall g, h :: !(WonL0(w, g, c) && ClaimedBy(w, h, c))
  {
    ReachableIsSafe(w, actions, quota);
    hide FlowStates.Consistent, FlowsOk, CellsOk, RecordsOk, RegistryOk;
    forall g | WonL0(w, g, c) ensures c in w.holder && w.holder[c] == ByL0(g) { assert L0Ok(w, g); }
    forall g | ClaimedBy(w, g, c) ensures c in w.holder && w.holder[c] == ByL1(g) { assert L1Ok(w, g); }
  }

  predicate WonL0(w: World, g: GuardId, c: CellId) {
    g in w.l0 && w.l0[g].cell == c && w.l0[g].Won()
  }

  predicate ClaimedBy(w: World, g: GuardId, c: CellId) {
    g in w.l1 && w.l1[g].cell == c && w.l1[g].stage >= CLAIMED
  }

  /** An engine guard dropped without a finalize always wins its exchange. */
  lemma DropAlwaysFinalizes(w: World, g: GuardId)
    requires Safe(w) && AtL1(w, g, REGISTERED)
    ensures Enabled(w, DropL1(g)) && L1Dropped(w, g).l1[g].stage == WON
    ensures L1Dropped(w, g).l1[g].status == Cancelled && L1Dropped(w, g).l1[g].reason == Some(DROPPED)
  {
    GuardsFlowOk(w, g);
  }

  // ---- terminal states are final ---------------------------------------------

  /** A flow's identity and its verdict, once there is one, are there to stay. */
  ghost predicate VerdictStays(w: World, w': World, c: CellId) {
    && (forall id :: id in w.flows ==> id in w'.flows && w'.flows[id] == w.flows[id])
    && (Verdict(w, c).Some? ==> Verdict(w', c) == Verdict(w, c))
  }

  lemma CallKeepsVerdict(w: World, op: Op, quota: nat, c: CellId)
    requires c in w.cells && CallAllowed(w, op)
    ensures VerdictStays(w, Called(w, op, quota), c)
  {
    hide Apply, CapScalar;
  }

  lemma L0KeepsVerdict(w: World, g: GuardId, id: Text, now: nat, elapsed: nat, quota: nat, c: CellId)
    requires c in w.cells && CellOk(w, c)
    ensures g !in w.l0 && id in w.store.byId ==> VerdictStays(w, L0Minted(w, g, id), c)
    ensures g in w.l0 && w.l0[g].stage == Held && w.l0[g].cell in w.cells ==> VerdictStays(w, L0Dropped(w, g), c)
    ensures g in w.l0 && w.l0[g].stage == Winning ==> VerdictStays(w, L0Stamped(w, g, now, elapsed, quota), c)
  {
    hide Apply, CapScalar;
  }

  lemma L1EntersKeepsVerdict(w: World, g: GuardId, id: Text, token: TokenId, c: CellId)
    requires c in w.cells && CellOk(w, c)
    ensures g !in w.l1 && id in w.store.byId ==> VerdictStays(w, L1Read(w, g, id), c)
    ensures AtL1(w, g, READ) && w.l1[g].cell in w.cells ==> VerdictStays(w, L1Claimed(w, g), c)
    ensures AtL1(w, g, CLAIMED) ==> VerdictStays(w, L1Registered(w, g, token), c)
  {
  }

  lemma L1FinalizesKeepsVerdict(w: World, g: GuardId, status: FlowStatus, reason: Option<Text>, c: CellId)
    requires c in w.cells && CellOk(w, c) && g in w.l1 && w.l1[g].cell in w.cells
    ensures VerdictStays(w, TryFinalize(w, g, status, reason), c)
  {
  }

  lemma L1DropsKeepsVerdict(w: World, g: GuardId, c: CellId)
    requires c in w.cells && CellOk(w, c) && g in w.l1 && w.l1[g].cell in w.cells
    ensures VerdictStays(w, L1Dropped(w, g), c)
  {
    var w' := w.(l1 := w.l1[g := w.l1[g].(dropped := true)]);
    assert CellOk(w', c) && Verdict(w', c) == Verdict(w, c);
    L1FinalizesKeepsVerdict(w', g, Cancelled, Some(DROPPED), c);
    hide CellOk, Verdict, TryFinalize;
  }

  lemma L1AdvancesKeepsVerdict(
      w: World, g: GuardId, readings: Readings, id: Text, e: Edit, now: nat, quota: nat, c: CellId)
    requires c in w.cells && g in w.l1
    ensures AtL1(w, g, WON) ==> VerdictStays(w, L1Measured(w, g, readings), c)
    ensures VerdictStays(w, L1Advanced(w, g), c) && VerdictStays(w, L1Released(w, g), c)
    ensures VerdictStays(w, StoreEdited(L1Advanced(w, g), id, e, now, quota), c)
  {
    hide Apply, CapScalar;
  }

  lemma StepKeepsVerdict(w: World, a: Action, quota: nat, c: CellId)
    requires c in w.cells && CellOk(w, c) && Enabled(w, a)
    ensures VerdictStays(w, Next(w, a, quota), c)
  {
    hide CellOk, VerdictStays, Apply, CapScalar;
    match a
    case Call(op) => CallKeepsVerdict(w, op, quota, c);
    case MintL0(g, id) => L0KeepsVerdict(w, g, id, 0, 0, quota, c);
    case DropL0(g) => L0KeepsVerdict(w, g, [], 0, 0, quota, c);
    case StampL0(g, now, elapsed) => L0KeepsVerdict(w, g, [], now, elapsed, quota, c);
    case ReadL1(g, id) => L1EntersKeepsVerdict(w, g, id, 0, c);
    case ClaimL1(g) => L1EntersKeepsVerdict(w, g, [], 0, c);
    case RegisterL1(g, token) => L1EntersKeepsVerdict(w, g, [], token, c);
    case FinalizeL1(g, status, reason) => L1FinalizesKeepsVerdict(w, g, status, reason, c);
    case DropL1(g) => L1DropsKeepsVerdict(w, g, c);
    case MeasureL1(g, readings) => L1AdvancesKeepsVerdict(w, g, readings, [], RoutingEdit(0), 0, quota, c);
    case StampL1(g, now, elapsed) =>
      L1AdvancesKeepsVerdict(w, g, NO_READINGS, w.l1[g].apiCallId, VerdictEdit(w.l1[g], now, elapsed), now, quota, c);
    case TraceL1(g, now) =>
      L1AdvancesKeepsVerdict(w, g, NO_READINGS, w.l1[g].apiCallId, TraceEdit(w.l1[g]), now, quota, c);
    case AnswerL1(g, body, now) =>
      L1AdvancesKeepsVerdict(w, g, NO_READINGS, w.l1[g].apiCallId,
                             if body.Some? then ResponseEdit(body.value) else RoutingEdit(0), now, quota, c);
    case ReleaseL1(g) => L1AdvancesKeepsVerdict(w, g, NO_READINGS, [], RoutingEdit(0), 0, quota, c);
    case AbortLooks(id) => AbortKeepsVerdict(w, id, 0, c);
    case AbortCancels(token) => AbortKeepsVerdict(w, [], token, c);
  }

  lemma KillsKeepVerdict(w: World, kills: Kills, c: CellId)
    ensures VerdictStays(w, w.(kills := kills), c)
  {
  }

  lemma AbortKeepsVerdict(w: World, id: Text, token: TokenId, c: CellId)
    ensures VerdictStays(w, AbortLooked(w, id), c) && VerdictStays(w, AbortCancelled(w, token), c)
  {
    hide VerdictStays;
    KillsKeepVerdict(w, w.kills, c);
    KillsKeepVerdict(w, AbortLooked(w, id).kills, c);
    KillsKeepVerdict(w, AbortCancelled(w, token).kills, c);
  }

  lemma {:induction false} RunKeepsVerdict(w: World, actions: seq<Action>, quota: nat, id: Text)
    requires Safe(w) && Possible(w, actions, quota) && id in w.flows && Verdict(w, w.flows[id].cell).Some?
    ensures var w' := After(w, actions, quota);
            id in w'.flows && w'.flows[id] == w.flows[id]
                && Verdict(w', w.flows[id].cell) == Verdict(w, w.flows[id].cell)
    decreases |actions|
  {
    if actions != [] {
      hide Safe, Verdict, Next, Enabled;
      StepKeepsSafe(w, actions[0], quota);
      StepKeepsVerdict(w, actions[0], quota, w.flows[id].cell);
      RunKeepsVerdict(Next(w, actions[0], quota), actions[1..], quota, id);
    }
  }

  /** A terminal status and its reason, once a guard has written them, are never
      overwritten, whatever is dropped, finalized, killed or evicted later. */
  lemma TerminalIsFinal(w: World, actions: seq<Action>, quota: nat, id: Text)
    requires Safe(w) && Possible(w, actions, quota)
    ensures var s, s' := w.store.byId, After(w, actions, quota).store.byId;
            id in s && s[id].status != Open && id in s' ==>
              s'[id].status == s[id].status && s'[id].terminalReason == s[id].terminalReason
  {
    if id in w.store.byId && w.store.byId[id].status != Open && id in After(w, actions, quota).store.byId {
      RecordAt(w, id);
      RunKeepsVerdict(w, actions, quota, id);
      EveryReachableWorldIsSafe(w, actions, quota);
      RecordAt(After(w, actions, quota), id);
    }
  }

  lemma RecordAt(w: World, id: Text)
    requires Safe(w) && id in w.store.byId
    ensures RecordOk(w, id)
  {
  }

  // ---- no flow is left open ----------------------------------------------------

  /** Every guard of this flow is dropped and has finished what it started; guards of
      other flows may be anywhere. */
  ghost predicate QuietFor(w: World, id: Text) {
    && (forall g :: g in w.l0 && w.l0[g].apiCallId == id ==> w.l0[g].stage.Gone?)
    && (forall g :: g in w.l1 && w.l1[g].apiCallId == id ==> w.l1[g].stage == LOST || w.l1[g].stage == RELEASED)
  }

  ghost predicate HadGuard(w: World, id: Text) {
    || (exists g :: g in w.l0 && w.l0[g].apiCallId == id)
    || (exists g :: g in w.l1 && w.l1[g].apiCallId == id)
  }

  lemma GuardedCellIsTaken(w: World, id: Text)
    requires L0sOk(w) && L1sOk(w) && QuietFor(w, id) && HadGuard(w, id)
    ensures id in w.flows && w.flows[id].cell in w.cells
    ensures w.cells[w.flows[id].cell] != OpenL0 || HeldByL1(w, id)
  {
    hide Verdict;
    if g :| g in w.l0 && w.l0[g].apiCallId == id {
      assert L0Ok(w, g);
    } else {
      var g :| g in w.l1 && w.l1[g].apiCallId == id;
      assert L1Ok(w, g);
    }
  }

  ghost predicate HeldByL1(w: World, id: Text) {
    id in w.flows && w.flows[id].cell in w.holder && w.holder[w.flows[id].cell].ByL1?
  }

  lemma TakenCellIsSettled(w: World, id: Text)
    requires QuietFor(w, id) && FlowsOk(w) && L0sOk(w) && L1sOk(w)
    requires id in w.flows && w.flows[id].cell in w.cells && CellOk(w, w.flows[id].cell)
    requires w.holder[w.flows[id].cell] != Nobody
    ensures Verdict(w, w.flows[id].cell).Some? && Verdict(w, w.flows[id].cell).value.0 != Open
  {
    assert FlowOk(w, id);
    var h := w.holder[w.flows[id].cell];
    if h.ByL1? {
      assert L1Ok(w, h.l1) && FlowOk(w, w.l1[h.l1].apiCallId);
    } else {
      assert L0Ok(w, h.l0) && FlowOk(w, w.l0[h.l0].apiCallId);
    }
  }

  /** Once a flow's own guards are gone, its record, if it is still live and had a
      guard, is not `Open`, whatever else is in flight. */
  lemma NoOrphanStaysOpen(w: World, actions: seq<Action>, quota: nat, id: Text)
    requires Reachable(w, actions, quota) && QuietFor(w, id) && id in w.store.byId && HadGuard(w, id)
    ensures w.store.byId[id].status != Open
  {
    ReachableIsSafe(w, actions, quota);
    hide FlowStates.Consistent, FlowsOk, CellsOk, L0sOk, L1sOk, RecordsOk, RegistryOk, HadGuard, QuietFor, Reachable;
    RecordsCell(w, id);
    GuardedCellIsTaken(w, id);
    TakenCellIsSettled(w, id);
  }

  /** And no snapshot taken from then on lists the flow as `Open`. */
  lemma NoOrphanIsListedOpen(w: World, actions: seq<Action>, quota: nat, id: Text, now: nat, i: nat)
    requires Reachable(w, actions, quota) && QuietFor(w, id) && HadGuard(w, id)
    requires i < |Summaries(FlowStates.Prune(w.store, now), FlowStates.Prune(w.store, now).order)|
    ensures var entry := Summaries(FlowStates.Prune(w.store, now), FlowStates.Prune(w.store, now).order)[i];
            entry.apiCallId == id ==> entry.status != Open
  {
    hide Safe, FlowStates.Consistent, FlowStates.Prune, QuietFor, HadGuard, Summaries;
    ReachableIsSafe(w, actions, quota);
    hide Reachable;
    StoreIsConsistent(w);
    LinkJoin.SnapshotShowsRecords(w.store, now, i);
    var entry := Summaries(FlowStates.Prune(w.store, now), FlowStates.Prune(w.store, now).order)[i];
    if entry.apiCallId == id { NoOrphanStaysOpen(w, actions, quota, id); }
  }

  lemma StoreIsConsistent(w: World)
    requires Safe(w)
    ensures FlowStates.Consistent(w.store)
  {
  }

  // ---- the kill registry -------------------------------------------------------

  lemma HubEntry(w: World, id: Text) returns (g: GuardId)
    requires Safe(w) && id in w.hub
    ensures g in w.l1 && w.l1[g].InFlight() && w.l1[g].apiCallId == id && w.l1[g].token == w.hub[id]
  {
    hide FlowStates.Consistent, FlowsOk, CellsOk, L0sOk, L1sOk, RecordsOk, TokenOk;
    assert HubOk(w, id);
    g := w.holder[w.flows[id].cell].l1;
  }

  predicate InFlightFor(w: World, g: GuardId, id: Text) {
    g in w.l1 && w.l1[g].InFlight() && w.l1[g].apiCallId == id
  }

  /** The registry is exactly the in-flight engine guards: an entry exists for an id
      just when a guard of that flow has registered and not yet removed, that guard
      is the only one, and the entry is its token. So the registry is empty once no
      guard is in flight. */
  lemma HubIsTheInFlightGuards(w: World, actions: seq<Action>, quota: nat, id: Text)
    requires Reachable(w, actions, quota)
    ensures id in w.hub <==> exists g :: InFlightFor(w, g, id)
    ensures forall g :: InFlightFor(w, g, id) ==> w.hub[id] == w.l1[g].token
    ensures forall g, h :: InFlightFor(w, g, id) && InFlightFor(w, h, id) ==> g == h
  {
    ReachableIsSafe(w, actions, quota);
    hide Safe, Reachable;
    forall g | InFlightFor(w, g, id)
      ensures id in w.hub && w.hub[id] == w.l1[g].token
      ensures id in w.flows && w.flows[id].cell in w.holder && w.holder[w.flows[id].cell] == ByL1(g)
    {
    }
    if id in w.hub {
      var g := HubEntry(w, id);
      assert InFlightFor(w, g, id);
    }
  }

  lemma KillsOfStep(w: World, a: Action, quota: nat)
    requires Enabled(w, a)
    ensures Next(w, a, quota).kills == (if a.AbortLooks? then AbortLooked(w, a.id).kills
                                        else if a.AbortCancels? then AbortCancelled(w, a.token).kills else w.kills)
  {
    hide Called, L0Minted, L0Dropped, L0Stamped, L1Read, L1Claimed, L1Registered, TryFinalize, L1Dropped,
      L1Measured, L1Advanced, L1Answered, L1Released, StoreEdited;
  }

  /** The step is an abort's lookup, and finds `t` under the id it was asked to kill. */
  predicate Finds(w: World, a: Action, t: TokenId) {
    a.AbortLooks? && a.id in w.hub && w.hub[a.id] == t
  }

  /** Some abort of the run finds the token registered. */
  ghost predicate FoundAlong(w: World, actions: seq<Action>, quota: nat, t: TokenId)
    requires Possible(w, actions, quota)
    decreases |actions|
  {
    actions != [] && (Finds(w, actions[0], t) || FoundAlong(Next(w, actions[0], quota), actions[1..], quota, t))
  }

  lemma FoundByStep(w: World, a: Action, quota: nat, t: TokenId)
    requires Enabled(w, a)
    ensures t in Next(w, a, quota).kills.found <==> t in w.kills.found || Finds(w, a, t)
  {
    KillsOfStep(w, a, quota);
    hide Next, Enabled;
  }

  lemma {:induction false} FoundExactly(w: World, actions: seq<Action>, quota: nat, t: TokenId)
    requires Possible(w, actions, quota)
    ensures t in After(w, actions, quota).kills.found <==> t in w.kills.found || FoundAlong(w, actions, quota, t)
    decreases |actions|
  {
    hide Next, Enabled, Finds;
    if actions != [] {
      FoundByStep(w, actions[0], quota, t);
      FoundExactly(Next(w, actions[0], quota), actions[1..], quota, t);
    }
  }

  /** A token that is cancelled was found registered by some abort before, although
      its guard may have removed it between the lookup and the cancel; and it is the
      token of a guard that did register it. */
  lemma CancelledOnlyWhenRegistered(w: World, actions: seq<Action>, quota: nat, t: TokenId)
    requires Reachable(w, actions, quota) && t in w.kills.cancelled
    ensures FoundAlong(START, actions, quota, t)
    ensures t in w.issued && w.issued[t] in w.l1 && w.l1[w.issued[t]].token == t
    ensures w.l1[w.issued[t]].stage >= REGISTERED
  {
    ReachableIsSafe(w, actions, quota);
    FoundExactly(START, actions, quota, t);
    hide FlowStates.Consistent, FlowsOk, CellsOk, L0sOk, L1sOk, RecordsOk, HubOk;
    assert TokenOk(w, t);
  }

  // ---- what decides a flow ---------------------------------------------------------

  /** The verdict the first finalize or drop of `g` in the run passes. */
  function FirstVerdict(actions: seq<Action>, g: GuardId): Option<(FlowStatus, Option<Text>)> {
    if actions == [] then None
    else if actions[0].FinalizeL1? && actions[0].g == g then Some((actions[0].status, actions[0].reason))
    else if actions[0].DropL1? && actions[0].g == g then Some((Cancelled, Some(DROPPED)))
    else FirstVerdict(actions[1..], g)
  }

  /** Guard `g` is live and undecided, or decided with `verdict`. */
  ghost predicate Decided(w: World, g: GuardId, id: Text, verdict: Option<(FlowStatus, Option<Text>)>) {
    && g in w.l1 && w.l1[g].apiCallId == id
    && (verdict.None? ==> w.l1[g].stage == REGISTERED)
    && (verdict.Some? ==>
          w.l1[g].stage >= WON && w.l1[g].status == verdict.value.0 && w.l1[g].reason == verdict.value.1)
  }

  predicate EndsGuard(a: Action, g: GuardId) {
    (a.FinalizeL1? || a.DropL1?) && a.g == g
  }

  /** The engine guard a step moves. */
  predicate Moves(a: Action, g: GuardId) {
    && (a.ReadL1? || a.ClaimL1? || a.RegisterL1? || a.FinalizeL1? || a.DropL1? || a.MeasureL1? || a.StampL1?
        || a.TraceL1? || a.AnswerL1? || a.ReleaseL1?)
    && a.g == g
  }

  lemma NoSecondWin(w: World, g: GuardId, status: FlowStatus, reason: Option<Text>)
    requires g in w.l1 && w.l1[g].cell in w.cells && w.cells[w.l1[g].cell] == Finalized
    ensures TryFinalize(w, g, status, reason) == w
    ensures L1Dropped(w, g).l1[g] == w.l1[g].(dropped := true)
  {
  }

  /** What the steps after the win leave of the guard. */
  lemma WinnersSteps(w: World, g: GuardId, readings: Readings, body: Option<ResponseBody>, now: nat, quota: nat)
    requires g in w.l1
    ensures L1Measured(w, g, readings).l1[g].status == w.l1[g].status
        && L1Measured(w, g, readings).l1[g].reason == w.l1[g].reason
    ensures L1Measured(w, g, readings).l1[g].apiCallId == w.l1[g].apiCallId
        && L1Measured(w, g, readings).l1[g].stage == MEASURED
    ensures L1Advanced(w, g).l1[g] == w.l1[g].(stage := w.l1[g].stage + 1)
    ensures L1Released(w, g).l1[g] == w.l1[g].(stage := w.l1[g].stage + 1)
    ensures L1Answered(w, g, body, now, quota).l1[g] == w.l1[g].(stage := w.l1[g].stage + 1)
  {
    hide StoreEdited;
  }

  lemma OwnStep(w: World, a: Action, quota: nat, g: GuardId)
    requires Enabled(w, a) && Moves(a, g) && g in w.l1 && w.l1[g].stage >= WON
    requires w.l1[g].cell in w.cells && w.cells[w.l1[g].cell] == Finalized
    ensures var next := Next(w, a, quota).l1;
            g in next && next[g].apiCallId == w.l1[g].apiCallId && next[g].stage >= WON
            && next[g].status == w.l1[g].status && next[g].reason == w.l1[g].reason
  {
    hide StoreEdited, TryFinalize, L1Dropped, L1Measured, L1Advanced, L1Released, L1Answered, VerdictEdit, TraceEdit;
    NoSecondWin(w, g, if a.FinalizeL1? then a.status else Open, if a.FinalizeL1? then a.reason else None);
    WinnersSteps(w, g, if a.MeasureL1? then a.readings else NO_READINGS, if a.AnswerL1? then a.body else None,
                 if a.AnswerL1? then a.now else 0, quota);
  }

  /** A decided guard only moves on; its verdict stays. */
  lemma DecidedStays(w: World, a: Action, quota: nat, g: GuardId, id: Text, verdict: Option<(FlowStatus, Option<Text>)>)
    requires Enabled(w, a) && Decided(w, g, id, verdict) && w.l1[g].cell in w.cells
    requires if verdict.Some? then w.cells[w.l1[g].cell] == Finalized else !EndsGuard(a, g)
    ensures Decided(Next(w, a, quota), g, id, verdict)
  {
    if Moves(a, g) {
      if verdict.Some? {
        OwnStep(w, a, quota, g);
      }
    } else {
    }
    hide Next;
  }

  /** A live guard's finalize or drop always wins and fixes the verdict. */
  lemma EndDecides(w: World, a: Action, quota: nat, g: GuardId, id: Text)
    requires Enabled(w, a) && Decided(w, g, id, None) && w.l1[g].cell in w.cells && w.cells[w.l1[g].cell] == ClaimedL1
    requires EndsGuard(a, g)
    ensures Decided(Next(w, a, quota), g, id, FirstVerdict([a], g))
  {
  }

  lemma DecidedCell(w: World, g: GuardId, id: Text, verdict: Option<(FlowStatus, Option<Text>)>)
    requires Safe(w) && Decided(w, g, id, verdict)
    ensures g in w.l1 && w.l1[g].cell in w.cells
    ensures w.cells[w.l1[g].cell] == if verdict.Some? then Finalized else ClaimedL1
  {
    GuardsFlowOk(w, g);
    hide Safe;
  }

  lemma {:induction false} RunDecides(
      w: World, actions: seq<Action>, quota: nat, g: GuardId, id: Text, verdict: Option<(FlowStatus, Option<Text>)>)
    requires Safe(w) && Possible(w, actions, quota) && Decided(w, g, id, verdict)
    ensures Decided(After(w, actions, quota), g, id, Or(verdict, FirstVerdict(actions, g)))
    decreases |actions|
  {
    hide Safe, Next, Enabled, Decided;
    if actions != [] {
      var a := actions[0];
      DecidedCell(w, g, id, verdict);
      StepKeepsSafe(w, a, quota);
      if verdict.None? && EndsGuard(a, g) {
        EndDecides(w, a, quota, g, id);
        RunDecides(Next(w, a, quota), actions[1..], quota, g, id, FirstVerdict([a], g));
      } else {
        DecidedStays(w, a, quota, g, id, verdict);
        RunDecides(Next(w, a, quota), actions[1..], quota, g, id, verdict);
      }
    }
  }

  /** What the record of guard `g`, if it is live, shows: `Open` until the verdict is
      stamped, the verdict from then on. */
  ghost predicate Shows(w: World, g: GuardId, id: Text, verdict: Option<(FlowStatus, Option<Text>)>) {
    g in w.l1 && id in w.store.byId ==>
      if w.l1[g].stage < STAMPED then w.store.byId[id].status == Open
      else verdict.Some? && w.store.byId[id].status == verdict.value.0
           && w.store.byId[id].terminalReason == CapOption(verdict.value.1)
  }

  /** From the moment a guard is registered, killed or not, the first finalize or drop
      of that guard decides: it wins, nothing before it and nothing after it, kill,
      drop or second finalize, has a say, and its status and reason are what the
      record shows once stamped. */
  lemma FirstCallDecides(w: World, actions: seq<Action>, quota: nat, g: GuardId)
    requires Safe(w) && AtL1(w, g, REGISTERED) && Possible(w, actions, quota)
    ensures Decided(After(w, actions, quota), g, w.l1[g].apiCallId, FirstVerdict(actions, g))
    ensures Shows(After(w, actions, quota), g, w.l1[g].apiCallId, FirstVerdict(actions, g))
  {
    RunDecides(w, actions, quota, g, w.l1[g].apiCallId, None);
    EveryReachableWorldIsSafe(w, actions, quota);
    hide FlowStates.Consistent, Possible, After;
    ShowsDecided(After(w, actions, quota), g, w.l1[g].apiCallId, FirstVerdict(actions, g));
  }

  lemma ShowsDecided(w: World, g: GuardId, id: Text, verdict: Option<(FlowStatus, Option<Text>)>)
    requires Safe(w) && Decided(w, g, id, verdict)
    ensures Shows(w, g, id, verdict)
  {
    hide FlowStates.Consistent;
    GuardsFlowOk(w, g);
    if id in w.store.byId { RecordAt(w, id); }
  }

  predicate Stamped(w: World, g: GuardId) {
    g in w.l1 && w.l1[g].stage >= STAMPED
  }

  predicate StatusIs(w: World, id: Text, status: FlowStatus) {
    id in w.store.byId && w.store.byId[id].status == status
  }

  /** So a flow, killed or not, ends `Cancelled` if and only if the first end of its
      guard is the drop or itself says `Cancelled`. */
  lemma CancelledExactly(w: World, actions: seq<Action>, quota: nat, g: GuardId)
    requires Safe(w) && AtL1(w, g, REGISTERED) && Possible(w, actions, quota)
    ensures var w', id := After(w, actions, quota), w.l1[g].apiCallId;
            Stamped(w', g) && id in w'.store.byId ==>
              (StatusIs(w', id, Cancelled) <==>
               FirstVerdict(actions, g).Some? && FirstVerdict(actions, g).value.0 == Cancelled)
  {
    FirstCallDecides(w, actions, quota, g);
    hide Safe, Possible, After;
  }

  /** And a kill that found its token leaves every outcome open: the engine can still
      finalize `Completed`. */
  lemma AbortDoesNotDecide(w: World, g: GuardId, reason: Option<Text>)
    requires Safe(w) && AtL1(w, g, REGISTERED)
    ensures var id, t := w.l1[g].apiCallId, w.l1[g].token;
            var killed := AbortCancelled(AbortLooked(w, id), t);
            && id in w.hub && w.hub[id] == t
            && Enabled(w, AbortLooks(id)) && Enabled(AbortLooked(w, id), AbortCancels(t)) && t in killed.kills.cancelled
            && Enabled(killed, FinalizeL1(g, Completed, reason))
            && Decided(TryFinalize(killed, g, Completed, reason), g, id, Some((Completed, reason)))
  {
    var id, t := w.l1[g].apiCallId, w.l1[g].token;
    hide Safe;
    KilledToken(w, id);
    hide AbortLooked, AbortCancelled;
    LiveFinalizeWins(AbortCancelled(AbortLooked(w, id), t), g, Completed, reason);
  }

  lemma KilledToken(w: World, id: Text)
    requires id in w.hub
    ensures Enabled(w, AbortLooks(id)) && Enabled(AbortLooked(w, id), AbortCancels(w.hub[id]))
    ensures w.hub[id] in AbortCancelled(AbortLooked(w, id), w.hub[id]).kills.cancelled
  {
  }

  lemma LiveFinalizeWins(w: World, g: GuardId, status: FlowStatus, reason: Option<Text>)
    requires AtL1(w, g, REGISTERED) && !w.l1[g].dropped && status != Open
    requires w.l1[g].cell in w.cells && w.cells[w.l1[g].cell] == ClaimedL1
    ensures Enabled(w, FinalizeL1(g, status, reason))
    ensures Decided(TryFinalize(w, g, status, reason), g, w.l1[g].apiCallId, Some((status, reason)))
  {
  }

  // ---- metrics do not depend on retention ----------------------------------------

  /** In any two runs, whatever each store evicted, two winning finalizes of flows
      opened with the same route that read the same serving state record equal
      terminal metrics. */
  lemma MetricsIgnoreRetention(
    w: World, actions: seq<Action>, quota: nat, g: GuardId,
    w': World, actions': seq<Action>, quota': nat, g': GuardId)
    requires Reachable(w, actions, quota) && g in w.l1 && w.l1[g].stage >= MEASURED
    requires Reachable(w', actions', quota') && g' in w'.l1 && w'.l1[g'].stage >= MEASURED
    requires w.l1[g].apiCallId in w.flows && w'.l1[g'].apiCallId in w'.flows
    requires w.flows[w.l1[g].apiCallId].uri == w'.flows[w'.l1[g'].apiCallId].uri
    requires w.l1[g].readings == w'.l1[g'].readings
    ensures w.l1[g].metrics.Some? && w.l1[g].metrics == w'.l1[g'].metrics
  {
    ReachableIsSafe(w, actions, quota);
    ReachableIsSafe(w', actions', quota');
    hide FlowStates.Consistent;
    GuardsFlowOk(w, g);
    GuardsFlowOk(w', g');
  }

  /** If the record is still live when the finalize is through, it carries the very
      attempt trace the metrics payload carries. */
  lemma RecordAgreesWithMetrics(w: World, actions: seq<Action>, quota: nat, g: GuardId)
    requires Reachable(w, actions, quota) && g in w.l1 && w.l1[g].stage >= TRACED
    requires w.l1[g].apiCallId in w.store.byId
    ensures w.l1[g].metrics.Some?
    ensures w.store.byId[w.l1[g].apiCallId].attempts == w.l1[g].metrics.value.attempts
    ensures w.store.byId[w.l1[g].apiCallId].status == w.l1[g].status
  {
    ReachableIsSafe(w, actions, quota);
    hide Reachable;
    GuardsFlowOk(w, g);
    RecordAt(w, w.l1[g].apiCallId);
    hide Safe;
    AgreesIn(w, g);
  }

  lemma AgreesIn(w: World, g: GuardId)
    requires g in w.l1 && w.l1[g].stage >= TRACED && w.l1[g].apiCallId in w.store.byId
    requires L1Ok(w, g) && RecordOk(w, w.l1[g].apiCallId)
    ensures w.l1[g].metrics.Some?
    ensures w.store.byId[w.l1[g].apiCallId].attempts == w.l1[g].metrics.value.attempts
    ensures w.store.byId[w.l1[g].apiCallId].status == w.l1[g].status
  {
  }
}
