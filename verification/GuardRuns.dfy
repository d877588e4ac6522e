/** Runs from the empty gateway that show what the protocol theorems speak about is
    there to be reached. */
module GuardRuns {
  import opened Base
  import opened ScalarCap
  import opened FlowRecords
  import FlowStates
  import opened FlowStores
  import LinkEvictions
  import opened GuardWorld
  import opened GuardInvariant
  import opened GuardSafety
  import opened GuardTheorems
  import GuardObjects

  /** A finalize that records no reason and no provider evicts nothing. */
  lemma QuietFinalizeKeeps(s: FlowState, id: Text, now: nat, elapsed: nat, status: FlowStatus, quota: nat)
    requires InBounds(s, quota) && id in s.byId && now <= FlowStates.FLOW_TTL_MS
    requires SummaryBytes(s.byId[id]) <= s.liveBytes
    ensures id in Apply(s, EditOp(id, FinalizeEdit(now, elapsed, status, None, None), now), quota).byId
  {
    var e := FinalizeEdit(now, elapsed, status, None, None);
    LinkEvictions.NothingExpires(s, s.order, now);
    assert FlowStates.Prune(s, now) == s;
    hide SummaryBytes, ApplyEdit;
    hide FlowStates.Prune, FlowStates.EnforceCaps;
  }

  /** The first flow ever opened. */
  lemma FirstFlow(id: Text, quota: nat) returns (w: World)
    requires |id| == 1 && quota >= 1
    ensures var actions := [Call(OpenOp(0, LinkEvictions.Bare(id), 0))];
            Possible(START, actions, quota) && w == After(START, actions, quota)
    ensures id in w.store.byId && w.store.byId[id].claim == 0 && w.cells == map[0 := OpenL0]
    ensures w.l1 == map[] && w.issued == map[]
    ensures InBounds(w.store, quota) && SummaryBytes(w.store.byId[id]) <= w.store.liveBytes
  {
    var op := OpenOp(0, LinkEvictions.Bare(id), 0);
    LinkEvictions.OpenBare(FlowStates.EMPTY, 0, id, 0, quota);
    LinkEvictions.BareFacts(0, id, 0, 1, None);
    assert CapScalar(op.args.apiCallId) == id;
    hide Apply, CapScalar, SummaryBytes;
    w := Called(START, op, quota);
    assert Possible(w, [], quota);
    GuardObjects.AfterCons(START, Call(op), [], quota);
    assert [Call(op)] + [] == [Call(op)];
  }

  /** What follows the registration: the kill, in its two steps, and the engine's
      finalize as completed up to the stamp. */
  function KilledThenCompleted(id: Text): seq<Action> {
    [AbortLooks(id), AbortCancels(0), FinalizeL1(0, Completed, None), MeasureL1(0, NO_READINGS), StampL1(0, 0, 0)]
  }

  /** A registered guard that can be killed and can win. */
  ghost predicate Live(w: World, id: Text) {
    && AtL1(w, 0, REGISTERED) && !w.l1[0].dropped && w.l1[0].apiCallId == id && w.l1[0].token == 0
    && w.l1[0].cell in w.cells && w.cells[w.l1[0].cell] == ClaimedL1
  }

  lemma Kill(w: World, id: Text, quota: nat) returns (killed: World)
    requires Live(w, id) && id in w.hub && w.hub[id] == 0
    ensures var actions := [AbortLooks(id), AbortCancels(0)];
            Possible(w, actions, quota) && killed == After(w, actions, quota)
    ensures Live(killed, id) && 0 in killed.kills.cancelled && killed.store == w.store
  {
    killed := AbortCancelled(AbortLooked(w, id), 0);
    GuardObjects.TwoSteps(w, AbortLooks(id), AbortCancels(0), quota);
    hide Possible, After;
  }

  lemma Finish(w: World, id: Text, quota: nat) returns (w': World)
    requires Live(w, id)
    ensures var actions := [FinalizeL1(0, Completed, None), MeasureL1(0, NO_READINGS), StampL1(0, 0, 0)];
            Possible(w, actions, quota) && w' == After(w, actions, quota)
    ensures w'.kills == w.kills && Stamped(w', 0)
    ensures w'.store == Apply(w.store, EditOp(id, FinalizeEdit(0, 0, Completed, None, None), 0), quota)
  {
    hide Apply, CapScalar;
    var won := TryFinalize(w, 0, Completed, None);
    var measured := L1Measured(won, 0, NO_READINGS);
    assert Next(w, FinalizeL1(0, Completed, None), quota) == won;
    assert Next(won, MeasureL1(0, NO_READINGS), quota) == measured;
    GuardObjects.ThreeSteps(w, FinalizeL1(0, Completed, None), MeasureL1(0, NO_READINGS), StampL1(0, 0, 0), quota);
    hide Possible, After;
    w' := Next(measured, StampL1(0, 0, 0), quota);
  }

  lemma KillAndFinish(w: World, id: Text, quota: nat) returns (w': World)
    requires Live(w, id) && id in w.hub && w.hub[id] == 0
    ensures Possible(w, KilledThenCompleted(id), quota) && w' == After(w, KilledThenCompleted(id), quota)
    ensures 0 in w'.kills.cancelled && Stamped(w', 0)
    ensures w'.store == Apply(w.store, EditOp(id, FinalizeEdit(0, 0, Completed, None, None), 0), quota)
  {
    var killed := Kill(w, id, quota);
    w' := Finish(killed, id, quota);
    hide Possible, After, Live, Apply;
    var first, last := [AbortLooks(id), AbortCancels(0)],
                       [FinalizeL1(0, Completed, None), MeasureL1(0, NO_READINGS), StampL1(0, 0, 0)];
    GuardObjects.RunsJoin(w, first, last, quota);
    assert first + last == KilledThenCompleted(id);
  }

  /** The first flow ever opened, with its engine guard. */
  lemma FirstGuard(id: Text, quota: nat) returns (actions: seq<Action>, w: World)
    requires |id| == 1 && quota >= 1
    ensures Reachable(w, actions, quota) && Live(w, id) && id in w.hub && w.hub[id] == 0
    ensures id in w.store.byId && InBounds(w.store, quota) && SummaryBytes(w.store.byId[id]) <= w.store.liveBytes
  {
    var opening := [Call(OpenOp(0, LinkEvictions.Bare(id), 0))];
    var minting := [ReadL1(0, id), ClaimL1(0), RegisterL1(0, 0)];
    var begun := FirstFlow(id, quota);
    GuardObjects.UninterruptedMint(begun, 0, id, 0, quota);
    hide Possible, After, SummaryBytes, InBounds;
    GuardObjects.RunsJoin(START, opening, minting, quota);
    actions, w := opening + minting, After(begun, minting, quota);
    ReachableIsSafe(w, actions, quota);
    hide Reachable;
    hide Safe;
  }

  /** A flow that is opened, registered and killed can complete: there is a run from
      the empty gateway at whose end its token is cancelled and its live record shows
      `Completed`. */
  lemma KilledFlowCompletes(id: Text, quota: nat) returns (actions: seq<Action>, w: World)
    requires |id| == 1 && quota >= 1
    ensures Reachable(w, actions, quota)
    ensures Decided(w, 0, id, Some((Completed, None))) && 0 in w.kills.cancelled && StatusIs(w, id, Completed)
  {
    var begun, minted := FirstGuard(id, quota);
    w := KillAndFinish(minted, id, quota);
    QuietFinalizeKeeps(minted.store, id, 0, 0, Completed, quota);
    GuardObjects.RunsJoin(START, begun, KilledThenCompleted(id), quota);
    actions := begun + KilledThenCompleted(id);
    ReachableIsSafe(minted, begun, quota);
    FirstCallDecides(minted, KilledThenCompleted(id), quota, 0);
    VerdictOfKilled(id);
    hide Possible, After, Safe, Apply, FirstVerdict, KilledThenCompleted;
  }

  lemma VerdictOfKilled(id: Text)
    ensures FirstVerdict(KilledThenCompleted(id), 0) == Some((Completed, None))
  {
    var rest := KilledThenCompleted(id)[1..];
    assert rest[0] == AbortCancels(0) && rest[1..][0] == FinalizeL1(0, Completed, None);
    assert FirstVerdict(rest[1..], 0) == Some((Completed, None));
    assert FirstVerdict(rest, 0) == FirstVerdict(rest[1..], 0);
  }
}
