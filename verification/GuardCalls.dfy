/** The calls that the steps of a run make on the store: the store of every reachable
    state is what those calls alone make of the empty one. */
module GuardCalls {
  import opened Base
  import opened ScalarCap
  import opened FlowRecords
  import FlowStates
  import opened FlowStores
  import opened LinkJoin
  import FlowHistories
  import FlowFields
  import opened GuardWorld

  /** The call a step makes on the store, if it makes one. */
  function Sent(w: World, a: Action): Option<Op>
    requires Enabled(w, a)
  {
    match a
    case Call(op) => Some(op)
    case StampL0(g, now, elapsed) =>
      Some(EditOp(w.l0[g].apiCallId, FinalizeEdit(now, elapsed, Failed, CapOption(Some(UNHANDLED)), None), now))
    case StampL1(g, now, elapsed) =>
      var guard := w.l1[g];
      var upstream := if guard.readings.provider.Some? then guard.readings.provider else guard.readings.route;
      Some(EditOp(guard.apiCallId,
                  FinalizeEdit(now, elapsed, guard.status, CapOption(guard.reason), CapOption(upstream)), now))
    case TraceL1(g, now) =>
      Some(EditOp(w.l1[g].apiCallId, AttemptsEdit(w.l1[g].readings.attempts, w.l1[g].readings.firstByte), now))
    case AnswerL1(g, body, now) =>
      if body.Some? then Some(EditOp(w.l1[g].apiCallId, ResponseEdit(body.value), now)) else None
    case _ => None
  }

  function Answered(s: FlowState, sent: Option<Op>, quota: nat): FlowState {
    if sent.Some? then Apply(s, sent.value, quota) else s
  }

  /** Nothing is opened, and the store is as `sent` leaves it. */
  predicate Sends(w: World, w': World, sent: Option<Op>, quota: nat) {
    w'.flows == w.flows && w'.store == Answered(w.store, sent, quota)
  }

  lemma L0Sends(w: World, g: GuardId, now: nat, elapsed: nat, quota: nat)
    requires g in w.l0
    ensures w.l0[g].cell in w.cells ==> Sends(w, L0Dropped(w, g), None, quota)
    ensures Sends(w, L0Stamped(w, g, now, elapsed, quota),
                  Some(EditOp(w.l0[g].apiCallId,
                              FinalizeEdit(now, elapsed, Failed, CapOption(Some(UNHANDLED)), None), now)), quota)
  {
    hide Apply, CapScalar, CapOption;
  }

  lemma MintsSend(w: World, g: GuardId, id: Text, quota: nat)
    requires id in w.store.byId
    ensures Sends(w, L0Minted(w, g, id), None, quota) && Sends(w, L1Read(w, g, id), None, quota)
  {
    hide Apply;
  }

  lemma KillsSend(w: World, id: Text, token: TokenId, quota: nat)
    ensures Sends(w, AbortLooked(w, id), None, quota) && Sends(w, AbortCancelled(w, token), None, quota)
  {
    hide Apply;
  }

  lemma RegisterSends(w: World, g: GuardId, token: TokenId, quota: nat)
    requires g in w.l1
    ensures Sends(w, L1Registered(w, g, token), None, quota)
  {
    hide Apply;
  }

  lemma ClaimSends(w: World, g: GuardId, quota: nat)
    requires g in w.l1 && w.l1[g].cell in w.cells
    ensures Sends(w, L1Claimed(w, g), None, quota)
  {
    hide Apply;
  }

  lemma EndsSend(w: World, g: GuardId, status: FlowStatus, reason: Option<Text>, quota: nat)
    requires g in w.l1 && w.l1[g].cell in w.cells
    ensures Sends(w, TryFinalize(w, g, status, reason), None, quota)
    ensures Sends(w, L1Dropped(w, g), None, quota)
  {
    hide Apply;
  }

  lemma LateStepsSend(
      w: World, g: GuardId, readings: Readings, body: Option<ResponseBody>, e: Edit, now: nat, quota: nat)
    requires g in w.l1
    ensures Sends(w, L1Measured(w, g, readings), None, quota) && Sends(w, L1Released(w, g), None, quota)
    ensures Sends(w, StoreEdited(L1Advanced(w, g), w.l1[g].apiCallId, e, now, quota),
                  Some(EditOp(w.l1[g].apiCallId, e, now)), quota)
    ensures Sends(w, L1Answered(w, g, body, now, quota),
                  if body.Some? then Some(EditOp(w.l1[g].apiCallId, ResponseEdit(body.value), now)) else None, quota)
  {
    hide Apply, MetricsOf;
  }

  lemma GuardsSend(w: World, a: Action, quota: nat)
    requires Enabled(w, a) && !a.Call?
    ensures Sends(w, Next(w, a, quota), Sent(w, a), quota)
  {
    hide Sends, L0Minted, L0Dropped, L0Stamped, StoreEdited, L1Read, L1Claimed, L1Registered, TryFinalize, L1Dropped,
      L1Measured, L1Advanced, L1Answered, L1Released, AbortLooked, AbortCancelled, CapOption;
    match a
    case MintL0(g, id) => MintsSend(w, g, id, quota);
    case DropL0(g) => L0Sends(w, g, 0, 0, quota);
    case StampL0(g, now, elapsed) => L0Sends(w, g, now, elapsed, quota);
    case ReadL1(g, id) => MintsSend(w, g, id, quota);
    case ClaimL1(g) => ClaimSends(w, g, quota);
    case RegisterL1(g, token) => RegisterSends(w, g, token, quota);
    case FinalizeL1(g, status, reason) => EndsSend(w, g, status, reason, quota);
    case DropL1(g) => EndsSend(w, g, Open, None, quota);
    case MeasureL1(g, readings) => LateStepsSend(w, g, readings, None, RoutingEdit(0), 0, quota);
    case StampL1(g, now, elapsed) =>
      LateStepsSend(w, g, NO_READINGS, None, VerdictEdit(w.l1[g], now, elapsed), now, quota);
    case TraceL1(g, now) => LateStepsSend(w, g, NO_READINGS, None, TraceEdit(w.l1[g]), now, quota);
    case AnswerL1(g, body, now) => LateStepsSend(w, g, NO_READINGS, body, RoutingEdit(0), now, quota);
    case ReleaseL1(g) => LateStepsSend(w, g, NO_READINGS, None, RoutingEdit(0), 0, quota);
    case AbortLooks(id) => KillsSend(w, id, 0, quota);
    case AbortCancels(token) => KillsSend(w, [], token, quota);
  }

  lemma StepSends(w: World, a: Action, quota: nat)
    requires Enabled(w, a)
    ensures Next(w, a, quota).store == Answered(w.store, Sent(w, a), quota)
  {
    hide Apply;
    if a.Call? {
      CalledStore(w, a.op, quota);
      hide Called;
    } else {
      GuardsSend(w, a, quota);
      hide Next, Sent;
    }
  }

  lemma CalledStore(w: World, op: Op, quota: nat)
    ensures Called(w, op, quota).store == Apply(w.store, op, quota)
  {
    hide Apply, CapScalar;
  }

  /** The calls of a run, in order. */
  function AllSent(w: World, actions: seq<Action>, quota: nat): seq<Op>
    requires Possible(w, actions, quota)
    decreases |actions|
  {
    if actions == [] then []
    else
      var sent := Sent(w, actions[0]);
      (if sent.Some? then [sent.value] else []) + AllSent(Next(w, actions[0], quota), actions[1..], quota)
  }

  /** Interleaved as they may be, the threads of a run leave the store as their calls
      on it would, one after another. */
  lemma {:induction false} StoreIsItsCalls(w: World, actions: seq<Action>, quota: nat)
    requires Possible(w, actions, quota)
    ensures After(w, actions, quota).store == Run(w.store, AllSent(w, actions, quota), quota)
    ensures forall i :: 0 <= i < |AllSent(w, actions, quota)| ==> Public(AllSent(w, actions, quota)[i])
    decreases |actions|
  {
    if actions != [] {
      StepSends(w, actions[0], quota);
      if Sent(w, actions[0]).Some? { StepIsPublic(w, actions[0]); }
      StoreIsItsCalls(Next(w, actions[0], quota), actions[1..], quota);
      var later := AllSent(Next(w, actions[0], quota), actions[1..], quota);
      var sent := Sent(w, actions[0]);
      hide Next, Enabled, Sent, Apply, Public;
      if sent.Some? {
        assert ([sent.value] + later)[1..] == later;
      } else {
        assert [] + later == later;
      }
    }
  }

  lemma StepIsPublic(w: World, a: Action)
    requires Enabled(w, a) && Sent(w, a).Some?
    ensures Public(Sent(w, a).value)
  {
    hide CapScalar, CapOption;
  }

  /** So every field of a live record, under any interleaving, is what the calls of the
      run that reached it report. */
  lemma LiveRecordsAreReported(actions: seq<Action>, quota: nat, id: Text)
    requires Possible(START, actions, quota) && id in After(START, actions, quota).store.byId
    ensures var sent := AllSent(START, actions, quota);
            var r, calls := After(START, actions, quota).store.byId[id], FlowHistories.CallsTo(sent, quota, id);
            && calls != [] && FlowFields.OpenedBy(r, calls[0]) && FlowFields.ReportedBy(r, calls)
            && FlowFields.BodiesBy(r, FlowFields.BodyCalls(sent, quota, id))
  {
    StoreIsItsCalls(START, actions, quota);
    hide Possible, After, AllSent, Run, Public;
    hide FlowFields.OpenedBy, FlowFields.ReportedBy, FlowFields.BodiesBy, FlowFields.BodyCalls, FlowHistories.CallsTo;
    FlowFields.FieldsAreReported(AllSent(START, actions, quota), quota, id);
  }
}
