/** What a winning finalize records as its terminal metrics, from the steps of the run
    alone, and what the flow's own record shows of them. */
module GuardMetrics {
  import opened Base
  import opened ScalarCap
  import opened FlowRecords
  import FlowStates
  import opened FlowStores
  import opened LinkJoin
  import FlowFields
  import opened GuardWorld
  import opened GuardInvariant
  import opened GuardSteps
  import opened GuardSafety
  import opened GuardTheorems
  import opened GuardCalls

  // ---- what the run says -----------------------------------------------------------

  /** The serving state that guard `g` reads when it measures. */
  function Measured(actions: seq<Action>, g: GuardId): Option<Readings> {
    if actions == [] then None
    else if actions[0].MeasureL1? && actions[0].g == g then Some(actions[0].readings)
    else Measured(actions[1..], g)
  }

  predicate Opens(a: Action, id: Text) {
    a.Call? && a.op.OpenOp? && CapScalar(a.op.args.apiCallId) == id
  }

  /** The route flow `id` is opened with. */
  function OpenedRoute(actions: seq<Action>, id: Text): Option<Text> {
    if actions == [] then None
    else if Opens(actions[0], id) then Some(CapScalar(actions[0].op.args.uri))
    else OpenedRoute(actions[1..], id)
  }

  function ReadingsOf(w: World, g: GuardId): Option<Readings> {
    if g in w.l1 && w.l1[g].stage >= MEASURED then Some(w.l1[g].readings) else None
  }

  function RouteOf(w: World, id: Text): Option<Text> {
    if id in w.flows then Some(w.flows[id].uri) else None
  }

  lemma OthersStay(w: World, a: Action, quota: nat, g: GuardId)
    requires Enabled(w, a) && !Moves(a, g)
    ensures var next := Next(w, a, quota).l1; (g in next <==> g in w.l1) && (g in w.l1 ==> next[g] == w.l1[g])
  {
    hide TryFinalize, MetricsOf, VerdictEdit, TraceEdit;
  }

  lemma EntrySteps(w: World, g: GuardId, id: Text, token: TokenId)
    ensures id in w.store.byId ==> L1Read(w, g, id).l1[g].stage == READ
    ensures g in w.l1 ==> L1Registered(w, g, token).l1[g].stage == REGISTERED
  {
  }

  lemma ClaimStep(w: World, g: GuardId)
    requires g in w.l1 && w.l1[g].cell in w.cells
    ensures L1Claimed(w, g).l1[g].stage <= CLAIMED
  {
  }

  lemma EndSteps(w: World, g: GuardId, status: FlowStatus, reason: Option<Text>)
    requires g in w.l1 && w.l1[g].cell in w.cells && w.l1[g].stage < WON
    ensures TryFinalize(w, g, status, reason).l1[g].stage <= WON
    ensures L1Dropped(w, g).l1[g].stage <= WON
  {
  }

  /** A step of `g` before it has won leaves it unmeasured. */
  lemma EarlyStep(w: World, a: Action, quota: nat, g: GuardId)
    requires Enabled(w, a) && Moves(a, g) && (g in w.l1 ==> w.l1[g].stage < WON)
    ensures g in Next(w, a, quota).l1 && Next(w, a, quota).l1[g].stage <= WON
  {
    EntrySteps(w, g, if a.ReadL1? then a.id else [], if a.RegisterL1? then a.token else 0);
    if g in w.l1 && w.l1[g].cell in w.cells {
      ClaimStep(w, g);
      EndSteps(w, g, if a.FinalizeL1? then a.status else Open, if a.FinalizeL1? then a.reason else None);
    }
    hide StoreEdited, TryFinalize, L1Read, L1Claimed, L1Registered, L1Dropped, L1Measured, L1Advanced, L1Released,
      L1Answered, VerdictEdit, TraceEdit;
  }

  lemma MeasuredGuard(w: World, g: GuardId, readings: Readings)
    requires g in w.l1
    ensures L1Measured(w, g, readings).l1[g].apiCallId == w.l1[g].apiCallId
    ensures L1Measured(w, g, readings).l1[g].stage == MEASURED && L1Measured(w, g, readings).l1[g].readings == readings
  {
  }

  lemma LaterStep(w: World, a: Action, quota: nat, g: GuardId)
    requires Enabled(w, a) && Moves(a, g) && g in w.l1 && w.l1[g].stage >= WON
    requires w.l1[g].cell in w.cells && w.cells[w.l1[g].cell] == Finalized
    ensures var next := Next(w, a, quota).l1;
            && g in next && next[g].apiCallId == w.l1[g].apiCallId
            && (next[g].stage >= STAMPED <==> w.l1[g].stage >= STAMPED || a.StampL1?)
            && (if a.MeasureL1? then w.l1[g].stage == WON && next[g].stage == MEASURED && next[g].readings == a.readings
                else next[g].readings == w.l1[g].readings && (next[g].stage >= MEASURED <==> w.l1[g].stage >= MEASURED))
  {
    hide StoreEdited, TryFinalize, L1Dropped, L1Measured, L1Advanced, L1Released, L1Answered, VerdictEdit, TraceEdit;
    NoSecondWin(w, g, if a.FinalizeL1? then a.status else Open, if a.FinalizeL1? then a.reason else None);
    WinnersSteps(w, g, NO_READINGS, if a.AnswerL1? then a.body else None, if a.AnswerL1? then a.now else 0, quota);
    if a.MeasureL1? { MeasuredGuard(w, g, a.readings); }
  }

  lemma StepReads(w: World, a: Action, quota: nat, g: GuardId)
    requires Enabled(w, a)
    requires g in w.l1 && w.l1[g].stage >= WON ==> w.l1[g].cell in w.cells && w.cells[w.l1[g].cell] == Finalized
    ensures ReadingsOf(Next(w, a, quota), g) == Or(ReadingsOf(w, g), Measured([a], g))
  {
    if !Moves(a, g) {
      OthersStay(w, a, quota, g);
    } else if g in w.l1 && w.l1[g].stage >= WON {
      LaterStep(w, a, quota, g);
    } else {
      EarlyStep(w, a, quota, g);
    }
    hide Next;
  }

  lemma {:induction false} RunReads(w: World, actions: seq<Action>, quota: nat, g: GuardId)
    requires Safe(w) && Possible(w, actions, quota)
    ensures ReadingsOf(After(w, actions, quota), g) == Or(ReadingsOf(w, g), Measured(actions, g))
    decreases |actions|
  {
    hide Safe, Next, Enabled, ReadingsOf;
    if actions != [] {
      var a := actions[0];
      if g in w.l1 { GuardsFlowOk(w, g); }
      StepReads(w, a, quota, g);
      StepKeepsSafe(w, a, quota);
      RunReads(Next(w, a, quota), actions[1..], quota, g);
    }
  }

  lemma CallOpens(w: World, op: Op, quota: nat, id: Text)
    requires CallAllowed(w, op)
    ensures RouteOf(Called(w, op, quota), id) == Or(RouteOf(w, id), OpenedRoute([Call(op)], id))
  {
    hide CapScalar, Apply;
  }

  lemma StepOpens(w: World, a: Action, quota: nat, id: Text)
    requires Enabled(w, a)
    ensures RouteOf(Next(w, a, quota), id) == Or(RouteOf(w, id), OpenedRoute([a], id))
  {
    if a.Call? {
      CallOpens(w, a.op, quota, id);
      hide Called;
    } else {
      GuardsSend(w, a, quota);
      hide Next, Sent;
    }
  }

  lemma {:induction false} RunOpens(w: World, actions: seq<Action>, quota: nat, id: Text)
    requires Possible(w, actions, quota)
    ensures RouteOf(After(w, actions, quota), id) == Or(RouteOf(w, id), OpenedRoute(actions, id))
    decreases |actions|
  {
    hide Next, Enabled, RouteOf;
    if actions != [] {
      StepOpens(w, actions[0], quota, id);
      RunOpens(Next(w, actions[0], quota), actions[1..], quota, id);
    }
  }

  // ---- the payload -------------------------------------------------------------------

  lemma MeasuredPayload(w: World, g: GuardId)
    requires Safe(w) && g in w.l1 && w.l1[g].stage >= MEASURED
    ensures var guard := w.l1[g];
            && guard.metrics == Some(MetricsOf(guard.endpoint, guard.readings))
            && guard.apiCallId in w.flows && w.flows[guard.apiCallId].uri == guard.endpoint
  {
    GuardsFlowOk(w, g);
    hide Safe, FlowOk, CellOk, MetricsOf;
  }

  /** The payload of guard `g`, field by field: the route is the one its flow was opened
      with; the upstream is the provider the serving state named and otherwise the
      configured route; everything else is what the serving state held. */
  lemma MetricsAreMeasured(w: World, actions: seq<Action>, quota: nat, g: GuardId)
    requires Reachable(w, actions, quota) && g in w.l1 && w.l1[g].stage >= MEASURED
    ensures Measured(actions, g).Some? && w.l1[g].metrics.Some?
    ensures var m, seen := w.l1[g].metrics.value, Measured(actions, g).value;
            && OpenedRoute(actions, w.l1[g].apiCallId) == Some(m.endpoint)
            && (seen.provider.Some? ==> m.upstream == seen.provider)
            && (seen.provider.None? ==> m.upstream == seen.route)
            && m.modelServed == seen.modelServed && m.usage == seen.usage && m.attempts == seen.attempts
  {
    hide Safe;
    ReachableIsSafe(w, actions, quota);
    MeasuredPayload(w, g);
    StartIsSafe();
    RunReads(START, actions, quota, g);
    RunOpens(START, actions, quota, w.l1[g].apiCallId);
    hide Possible, After, Measured, OpenedRoute;
  }

  lemma StartIsSafe()
    ensures Safe(START)
  {
  }
}
