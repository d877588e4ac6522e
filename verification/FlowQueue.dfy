/** The order of the queue over a run: the live flows by when they were last opened. */
module FlowQueue {
  import opened Base
  import opened ScalarCap
  import opened FlowRecords
  import opened FlowStates
  import opened FlowStores
  import FlowHistories

  /** The ids a run opened, each once, by its last opening. */
  function Openings(ops: seq<Op>): seq<Text> {
    if ops == [] then []
    else
      var before, op := Openings(ops[..|ops| - 1]), ops[|ops| - 1];
      if op.OpenOp? then Without(before, CapScalar(op.args.apiCallId)) + [CapScalar(op.args.apiCallId)] else before
  }

  /** The ids of the list that are keys of the map. */
  function Live(ids: seq<Text>, m: map<Text, FlowRecord>): seq<Text> {
    if ids == [] then [] else (if ids[0] in m then [ids[0]] else []) + Live(ids[1..], m)
  }

  lemma {:induction false} LiveTwice(ids: seq<Text>, m: map<Text, FlowRecord>, n: map<Text, FlowRecord>)
    requires n.Keys <= m.Keys
    ensures Live(Live(ids, m), n) == Live(ids, n)
  {
    if ids != [] {
      LiveTwice(ids[1..], m, n);
      var rest := Live(ids[1..], m);
      if ids[0] in m {
        assert ([ids[0]] + rest)[1..] == rest;
      } else {
        assert Live(ids, m) == rest;
      }
    }
  }

  lemma {:induction false} LiveAll(ids: seq<Text>, m: map<Text, FlowRecord>)
    requires forall id :: id in ids ==> id in m
    ensures Live(ids, m) == ids
  {
    if ids != [] { LiveAll(ids[1..], m); }
  }

  lemma {:induction false} LiveSameKeys(ids: seq<Text>, m: map<Text, FlowRecord>, n: map<Text, FlowRecord>)
    requires m.Keys == n.Keys
    ensures Live(ids, m) == Live(ids, n)
  {
    if ids != [] {
      LiveSameKeys(ids[1..], m, n);
      assert ids[0] in m.Keys <==> ids[0] in n.Keys;
    }
  }

  lemma {:induction false} LiveOutside(ids: seq<Text>, gone: seq<Text>, m: map<Text, FlowRecord>)
    requires forall id :: id in ids ==> (id in m <==> id !in gone)
    ensures Live(ids, m) == Outside(ids, gone)
  {
    if ids != [] {
      assert ids[0] in ids;
      LiveOutside(ids[1..], gone, m);
    }
  }

  lemma {:induction false} LiveWithout(ids: seq<Text>, x: Text, m: map<Text, FlowRecord>, n: map<Text, FlowRecord>)
    requires forall id :: id != x ==> (id in m <==> id in n)
    ensures Live(Without(ids, x), n) == Without(Live(ids, m), x)
  {
    if ids != [] {
      LiveWithout(ids[1..], x, m, n);
      var rest := Live(ids[1..], m);
      var without := Without(ids[1..], x);
      assert Live(ids, m) == if ids[0] in m then [ids[0]] + rest else rest;
      assert ([ids[0]] + rest)[1..] == rest && ([ids[0]] + without)[1..] == without;
      assert Without(Live(ids, m), x) == (if ids[0] in m && ids[0] != x then [ids[0]] else []) + Without(rest, x);
      assert ids[0] != x ==> Live([ids[0]] + without, n) == (if ids[0] in n then [ids[0]] else []) + Live(without, n);
    }
  }

  lemma {:induction false} LiveAppend(ids: seq<Text>, x: Text, m: map<Text, FlowRecord>)
    requires x in m
    ensures Live(ids + [x], m) == Live(ids, m) + [x]
  {
    if ids == [] {
      assert [x][1..] == [];
    } else {
      var rest := Live(ids[1..], m);
      assert (ids + [x])[1..] == ids[1..] + [x] && (ids + [x])[0] == ids[0];
      LiveAppend(ids[1..], x, m);
      assert [ids[0]] + (rest + [x]) == [ids[0]] + rest + [x];
    }
  }

  /** The queue of `s'` is the queue of `s` less the records that are gone. */
  ghost predicate Thinned(s: FlowState, s': FlowState) {
    s'.byId.Keys <= s.byId.Keys && s'.order == Live(s.order, s'.byId)
  }

  lemma RemovalThins(s: FlowState, ids: seq<Text>, s': FlowState)
    requires QueueMatches(s) && Removed(s, ids, s')
    ensures Thinned(s, s')
  {
    LiveOutside(s.order, ids, s'.byId);
  }

  lemma ThinnedTwice(a: FlowState, b: FlowState, c: FlowState)
    requires Thinned(a, b) && Thinned(b, c)
    ensures Thinned(a, c)
  {
    LiveTwice(a.order, b.byId, c.byId);
  }

  lemma CapsThin(t: FlowState, quota: nat)
    requires Consistent(t)
    ensures Thinned(t, EnforceCaps(t, quota))
  {
    var surplus := t.order[..SatSub(|t.order|, FLOW_CAP)];
    var counted := DropToCount(t);
    DropToCountStops(t);
    PrefixNoDup(t.order, |surplus|);
    RemoveAllMeaning(t, surplus);
    RemovalThins(t, surplus, counted);
    QuotaThins(counted, quota);
    hide Consistent, Thinned, DropToCount, EnforceQuota;
    ThinnedTwice(t, counted, EnforceCaps(t, quota));
  }

  lemma QuotaThins(s: FlowState, quota: nat)
    requires Consistent(s)
    ensures Thinned(s, EnforceQuota(s, quota))
  {
    var k, n := QuotaIsMetMinimally(s, quota);
    var shed := ShedAll(s, s.order[..k]);
    PrefixNoDup(s.order, k);
    assert forall id :: id in s.order[..k] ==> id in s.byId;
    ShedAllMeaning(s, s.order[..k]);
    LiveAll(s.order, shed.byId);
    RemovalThins(shed, s.order[..n], EnforceQuota(s, quota));
    hide Consistent, EnforceQuota, ShedAll, Removed, BodiesShed;
    ThinnedTwice(s, shed, EnforceQuota(s, quota));
  }

  /** One call's own effect on the queue. */
  lemma EffectQueue(p: FlowState, op: Op)
    requires Consistent(p)
    ensures var t := Effect(p, op);
            if op.OpenOp? then
              var key := CapScalar(op.args.apiCallId);
              t.order == Without(p.order, key) + [key] && t.byId.Keys == p.byId.Keys + {key}
            else t.order == p.order && t.byId.Keys == p.byId.Keys
  {
    assert QueueMatches(p);
    if op.OpenOp? {
      var key := CapScalar(op.args.apiCallId);
      if key !in p.byId { WithoutAbsent(p.order, key); }
      hide CapScalar, NewRecord;
    } else if op.EditOp? {
      UpdateConsistent(p, op.id, op.edit);
    }
  }

  lemma CallQueue(s: FlowState, op: Op, quota: nat, seen: seq<Text>)
    requires Consistent(s) && s.order == Live(seen, s.byId)
    ensures var key := if op.OpenOp? then CapScalar(op.args.apiCallId) else [];
            var s' := Apply(s, op, quota);
            s'.order == Live(if op.OpenOp? then Without(seen, key) + [key] else seen, s'.byId)
  {
    if !(op.EditOp? && NothingToRecord(op.edit)) {
      var p := Prune(s, op.now);
      var t := Effect(p, op);
      var next := if op.OpenOp?
                  then Without(seen, CapScalar(op.args.apiCallId)) + [CapScalar(op.args.apiCallId)] else seen;
      PruneMeaning(s, op.now);
      RemovalThins(s, Expired(s, s.order, op.now), p);
      LiveTwice(seen, s.byId, p.byId);
      EffectQueue(p, op);
      EffectExactly(p, op);
      hide Consistent, Prune, Effect, CapScalar, EnforceCaps;
      if op.OpenOp? {
        var key := CapScalar(op.args.apiCallId);
        LiveWithout(seen, key, p.byId, t.byId);
        LiveAppend(Without(seen, key), key, t.byId);
      } else {
        LiveSameKeys(seen, p.byId, t.byId);
      }
      assert t.order == Live(next, t.byId);
      if !LeavesCaps(p, op) {
        CapsThin(t, quota);
        LiveTwice(next, t.byId, EnforceCaps(t, quota).byId);
      }
    }
  }

  /** After any run the queue holds the live flows in the order they were last opened. */
  lemma {:induction false} QueueIsOpeningOrder(ops: seq<Op>, quota: nat)
    ensures Run(EMPTY, ops, quota).order == Live(Openings(ops), Run(EMPTY, ops, quota).byId)
    decreases |ops|
  {
    if ops != [] {
      var front, op := ops[..|ops| - 1], ops[|ops| - 1];
      QueueIsOpeningOrder(front, quota);
      FlowHistories.RunLast(EMPTY, ops, quota);
      EmptyStoreIsConsistent(quota);
      EveryRunIsConsistent(EMPTY, front, quota);
      hide Consistent, Apply, Run;
      CallQueue(Run(EMPTY, front, quota), op, quota, Openings(front));
    }
  }
}
