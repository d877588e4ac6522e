/** The store itself: the state object behind the lock, updated in place, and the
    public operations on it. Each method is proved to take the exact step that the
    run theorems speak about. */
module DashboardStore {
  import opened Base
  import opened ScalarCap
  import opened FlowRecords
  import FlowStates
  import opened FlowStores
  import LinkJoin

  type FlowState = FlowStates.FlowState

  class DashboardFlowState {
    var byId: map<Text, FlowRecord>
    var order: seq<Text>
    var linkIndex: map<Text, Text>
    var liveSummaryBytes: nat
    var mutationSeq: nat

    function Model(): FlowState
      reads this
    {
      FlowStates.FlowState(byId, order, linkIndex, liveSummaryBytes, mutationSeq)
    }

    constructor ()
      ensures Model() == FlowStates.EMPTY
    {
      byId, order, linkIndex, liveSummaryBytes, mutationSeq := map[], [], map[], 0, 0;
    }

    method Insert(apiCallId: Text, record: FlowRecord)
      modifies this
      ensures Model() == FlowStates.Insert(old(Model()), apiCallId, record)
    {
      if apiCallId in byId {
        liveSummaryBytes := SatSub(liveSummaryBytes, SummaryBytes(byId[apiCallId]));
        byId := byId - {apiCallId};
        order := Without(order, apiCallId);
      }
      mutationSeq := mutationSeq + 1;
      var stamped := record.(recordSeq := mutationSeq);
      liveSummaryBytes := liveSummaryBytes + SummaryBytes(stamped);
      order := order + [apiCallId];
      byId := byId[apiCallId := stamped];
    }

    method ResolveId(id: Text) returns (hit: Option<Text>)
      ensures hit == FlowStates.Resolve(Model(), id)
    {
      if id in byId {
        return Some(id);
      }
      if id in linkIndex {
        return Some(linkIndex[id]);
      }
      hit := None;
    }

    method Update(id: Text, edit: Edit)
      modifies this
      ensures Model() == FlowStates.Update(old(Model()), id, edit)
    {
      var hit := ResolveId(id);
      if hit.None? || hit.value !in byId {
        return;
      }
      var before := SummaryBytes(byId[hit.value]);
      var next := ApplyEdit(edit, byId[hit.value]);
      liveSummaryBytes := SatSub(liveSummaryBytes, before) + SummaryBytes(next);
      mutationSeq := mutationSeq + 1;
      byId := byId[hit.value := next.(recordSeq := mutationSeq)];
    }

    method Remove(apiCallId: Text)
      modifies this
      ensures Model() == FlowStates.Remove(old(Model()), apiCallId)
    {
      if apiCallId in byId {
        var record := byId[apiCallId];
        byId := byId - {apiCallId};
        liveSummaryBytes := SatSub(liveSummaryBytes, SummaryBytes(record));
        if record.responseId.Some? {
          linkIndex := linkIndex - {record.responseId.value};
        }
      }
      assert byId == old(byId) - {apiCallId};
      order := Without(order, apiCallId);
      linkIndex := FlowStates.DropOwner(linkIndex, apiCallId);
      mutationSeq := mutationSeq + 1;
    }

    method PruneExpired(now: nat)
      modifies this
      ensures Model() == FlowStates.Prune(old(Model()), now)
    {
      var expired := FlowStates.Expired(Model(), order, now);
      var i := 0;
      assert expired[0..] == expired;
      while i < |expired|
        invariant i <= |expired|
        invariant FlowStates.RemoveAll(Model(), expired[i..]) == FlowStates.Prune(old(Model()), now)
      {
        assert expired[i..][1..] == expired[i + 1..];
        Remove(expired[i]);
        i := i + 1;
      }
    }

    method EnforceCaps(quotaBytes: nat)
      modifies this
      ensures Model() == FlowStates.EnforceCaps(old(Model()), quotaBytes)
    {
      while |order| > FlowStates.FLOW_CAP
        invariant FlowStates.DropToCount(Model()) == FlowStates.DropToCount(old(Model()))
        decreases |order|
      {
        WithoutShorter(order, order[0]);
        Remove(order[0]);
      }
      EnforceSummaryQuota(quotaBytes);
    }

    method EnforceSummaryQuota(quotaBytes: nat)
      modifies this
      ensures Model() == FlowStates.EnforceQuota(old(Model()), quotaBytes)
    {
      if liveSummaryBytes <= quotaBytes {
        return;
      }
      var ids := order;
      var i := 0;
      assert ids[0..] == ids;
      while i < |ids|
        invariant i <= |ids|
        invariant FlowStates.ShedUntil(Model(), quotaBytes, ids[i..])
            == FlowStates.ShedUntil(old(Model()), quotaBytes, ids)
      {
        if liveSummaryBytes <= quotaBytes {
          return;
        }
        assert ids[i..][1..] == ids[i + 1..];
        var id := ids[i];
        if id in byId && HasBody(byId[id]) {
          var freed := BodyBytes(byId[id]);
          byId := byId[id := Shed(byId[id])];
          liveSummaryBytes := SatSub(liveSummaryBytes, freed);
        }
        i := i + 1;
      }
      while liveSummaryBytes > quotaBytes
        invariant FlowStates.DropUntil(Model(), quotaBytes) == FlowStates.EnforceQuota(old(Model()), quotaBytes)
        decreases |order|
      {
        if order == [] {
          break;
        }
        WithoutShorter(order, order[0]);
        Remove(order[0]);
      }
    }
  }

  class DashboardFlowStore {
    const enabled: bool
    const responseCaptureEnabled: bool
    const state: DashboardFlowState
    const summaryQuotaBytes: nat

    constructor (enabled: bool, responseCaptureEnabled: bool, summaryQuotaBytes: nat)
      ensures this.enabled == enabled && this.responseCaptureEnabled == responseCaptureEnabled
      ensures this.summaryQuotaBytes == summaryQuotaBytes
      ensures fresh(state) && state.Model() == FlowStates.EMPTY
    {
      this.enabled, this.responseCaptureEnabled, this.summaryQuotaBytes :=
          enabled, responseCaptureEnabled, summaryQuotaBytes;
      state := new DashboardFlowState();
    }

    /** The state after `op` on an enabled store; a disabled one never changes. */
    ghost function Step(s: FlowState, op: Op): FlowState {
      if enabled then Apply(s, op, summaryQuotaBytes) else s
    }

    method Open(cell: CellId, args: OpenArgs, now: nat)
      modifies state
      ensures state.Model() == Step(old(state.Model()), OpenOp(cell, args, now))
    {
      if !enabled {
        return;
      }
      var record := NewRecord(cell, args, now);
      state.PruneExpired(now);
      state.Insert(CapScalar(args.apiCallId), record);
      state.EnforceCaps(summaryQuotaBytes);
    }

    method Link(responseId: Text, apiCallId: Text, now: nat)
      modifies state
      ensures state.Model() == Step(old(state.Model()), LinkOp(responseId, apiCallId, now))
    {
      if !enabled {
        return;
      }
      var capped := CapScalar(responseId);
      state.PruneExpired(now);
      if apiCallId !in state.byId {
        return;
      }
      if state.byId[apiCallId].responseId.Some? {
        return;
      }
      state.linkIndex := state.linkIndex[capped := apiCallId];
      state.Update(apiCallId, LinkEdit(capped));
      state.EnforceCaps(summaryQuotaBytes);
    }

    /** The shape every other capped mutator shares. */
    method Mutate(id: Text, edit: Edit, now: nat)
      requires enabled && !edit.SkipsCaps() && !NothingToRecord(edit)
      modifies state
      ensures state.Model() == Step(old(state.Model()), EditOp(id, edit, now))
    {
      state.PruneExpired(now);
      state.Update(id, edit);
      state.EnforceCaps(summaryQuotaBytes);
    }

    /** The shape of the mutators that skip the caps. */
    method MutateUncapped(id: Text, edit: Edit, now: nat)
      requires enabled && edit.SkipsCaps()
      modifies state
      ensures state.Model() == Step(old(state.Model()), EditOp(id, edit, now))
    {
      state.PruneExpired(now);
      state.Update(id, edit);
    }

    method SetUpstream(id: Text, target: Option<Text>, model: Option<Text>, body: Option<Text>, now: nat)
      modifies state
      ensures state.Model()
          == Step(old(state.Model()), EditOp(id, UpstreamEdit(CapOption(target), CapOption(model), body), now))
    {
      if enabled {
        Mutate(id, UpstreamEdit(CapOption(target), CapOption(model), body), now);
      }
    }

    method SetUpstreamResponse(id: Text, body: Option<ResponseBody>, now: nat)
      modifies state
      ensures state.Model() == if responseCaptureEnabled && body.Some?
                               then Step(old(state.Model()), EditOp(id, ResponseEdit(body.value), now))
                               else old(state.Model())
    {
      if !(enabled && responseCaptureEnabled) {
        return;
      }
      if body.None? {
        return;
      }
      Mutate(id, ResponseEdit(body.value), now);
    }

    method SetNormalized(apiCallId: Text, model: Option<Text>, body: Option<Text>, now: nat)
      modifies state
      ensures state.Model()
          == Step(old(state.Model()), EditOp(apiCallId, NormalizedEdit(now, CapOption(model), body), now))
    {
      if enabled {
        Mutate(apiCallId, NormalizedEdit(now, CapOption(model), body), now);
      }
    }

    method Finalize(
        apiCallId: Text, status: FlowStatus, reason: Option<Text>, provider: Option<Text>, now: nat, elapsed: nat)
      modifies state
      ensures state.Model() == Step(old(state.Model()),
                EditOp(apiCallId, FinalizeEdit(now, elapsed, status, CapOption(reason), CapOption(provider)), now))
    {
      if enabled {
        Mutate(apiCallId, FinalizeEdit(now, elapsed, status, CapOption(reason), CapOption(provider)), now);
      }
    }

    method RecordUsage(apiCallId: Text, usage: FlowUsage, now: nat)
      modifies state
      ensures state.Model() == Step(old(state.Model()), EditOp(apiCallId, UsageEdit(usage), now))
    {
      if enabled {
        MutateUncapped(apiCallId, UsageEdit(usage), now);
      }
    }

    method RecordAttempts(apiCallId: Text, attempts: seq<Attempt>, firstByte: Option<nat>, now: nat)
      modifies state
      ensures state.Model() == Step(old(state.Model()), EditOp(apiCallId, AttemptsEdit(attempts, firstByte), now))
    {
      if !enabled {
        return;
      }
      if attempts == [] && firstByte.None? {
        return;
      }
      Mutate(apiCallId, AttemptsEdit(attempts, firstByte), now);
    }

    method StampRoutingDecision(apiCallId: Text, now: nat)
      modifies state
      ensures state.Model() == Step(old(state.Model()), EditOp(apiCallId, RoutingEdit(now), now))
    {
      if enabled {
        MutateUncapped(apiCallId, RoutingEdit(now), now);
      }
    }

    method StampFirstContentDelta(id: Text, now: nat)
      modifies state
      ensures state.Model() == Step(old(state.Model()), EditOp(id, ContentEdit(now), now))
    {
      if enabled {
        MutateUncapped(id, ContentEdit(now), now);
      }
    }

    method StampStreamEnd(id: Text, now: nat)
      modifies state
      ensures state.Model() == Step(old(state.Model()), EditOp(id, StreamEndEdit(now), now))
    {
      if enabled {
        MutateUncapped(id, StreamEndEdit(now), now);
      }
    }

    method DetailWithSeq(id: Text, now: nat) returns (found: Option<(FlowRecord, nat)>)
      modifies state
      ensures state.Model() == Step(old(state.Model()), ReadOp(now))
      ensures var hit := LinkJoin.Detail(state.Model(), id);
              found == if enabled && hit.Some? then Some((hit.value, hit.value.recordSeq)) else None
    {
      if !enabled {
        return None;
      }
      state.PruneExpired(now);
      if id in state.byId {
        return Some((state.byId[id], state.byId[id].recordSeq));
      }
      if id !in state.linkIndex || state.linkIndex[id] !in state.byId {
        return None;
      }
      var record := state.byId[state.linkIndex[id]];
      found := Some((record, record.recordSeq));
    }

    method SnapshotSummariesWithSeq(now: nat) returns (summaries: seq<FlowSummary>, seqNo: nat)
      modifies state
      ensures state.Model() == Step(old(state.Model()), ReadOp(now))
      ensures summaries == if enabled then Summaries(state.Model(), state.order) else []
      ensures seqNo == if enabled then state.mutationSeq else 0
    {
      if !enabled {
        return [], 0;
      }
      state.PruneExpired(now);
      summaries, seqNo := Summaries(state.Model(), state.order), state.mutationSeq;
    }
  }
}
