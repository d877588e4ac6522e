/** What the byte accounting counts: every octet of every string and body a record
    holds, once, and so over any run never more in the whole store than the quota. */
module FlowOctets {
  import opened Base
  import opened ScalarCap
  import PhaseClock
  import opened FlowRecords
  import opened FlowStates
  import opened FlowStores

  // ---- the strings a record holds --------------------------------------------------

  function Held(x: Option<Text>): seq<Text> {
    if x.Some? then [x.value] else []
  }

  function HeaderTexts(headers: seq<(Text, Text)>): seq<Text> {
    if headers == [] then []
    else
      var last := headers[|headers| - 1];
      HeaderTexts(headers[..|headers| - 1]) + [last.0, last.1]
  }

  function AttemptTexts(attempts: seq<Attempt>): seq<Text> {
    if attempts == [] then []
    else
      var last := attempts[|attempts| - 1];
      AttemptTexts(attempts[..|attempts| - 1]) + Held(last.provider) + Held(last.model)
  }

  function Bodies(r: FlowRecord): seq<Text> {
    Held(r.inboundBody) + Held(r.normalized) + Held(r.upstreamBody)
    + if r.upstreamResponse.Some? then [r.upstreamResponse.value.octets] else []
  }

  function Scalars(r: FlowRecord): seq<Text> {
    [r.apiCallId, r.httpMethod, r.uri] + Held(r.responseId) + Held(r.modelRequested) + Held(r.modelServed)
    + Held(r.upstreamTarget) + Held(r.terminalReason) + Held(r.clientLabel)
  }

  /** Every string and body of the record. */
  function Texts(r: FlowRecord): seq<Text> {
    Bodies(r) + Scalars(r) + HeaderTexts(r.headers) + AttemptTexts(r.attempts)
  }

  function Octets(texts: seq<Text>): nat {
    if texts == [] then 0 else Octets(texts[..|texts| - 1]) + |texts[|texts| - 1]|
  }

  lemma {:induction false} OctetsJoin(a: seq<Text>, b: seq<Text>)
    ensures Octets(a + b) == Octets(a) + Octets(b)
  {
    if b == [] {
      assert a + b == a;
    } else {
      OctetsJoin(a, b[..|b| - 1]);
      assert (a + b)[..|a + b| - 1] == a + b[..|b| - 1];
    }
  }

  lemma OctetsHeld(x: Option<Text>)
    ensures Octets(Held(x)) == Len(x)
  {
    if x.Some? { OctetsOne(x.value); }
  }

  lemma OctetsOne(x: Text)
    ensures Octets([x]) == |x|
  {
    assert [x][..0] == [];
  }

  lemma {:induction false} HeadersCount(headers: seq<(Text, Text)>, more: (Text, Text))
    ensures HeaderBytes(headers + [more]) == HeaderBytes(headers) + |more.0| + |more.1|
  {
    if headers == [] {
      assert [more][1..] == [];
    } else {
      assert (headers + [more])[1..] == headers[1..] + [more];
      HeadersCount(headers[1..], more);
    }
  }

  lemma {:induction false} HeadersCharged(headers: seq<(Text, Text)>)
    ensures HeaderBytes(headers) == Octets(HeaderTexts(headers))
  {
    if headers != [] {
      var n := |headers| - 1;
      HeadersCharged(headers[..n]);
      HeadersCount(headers[..n], headers[n]);
      assert headers[..n] + [headers[n]] == headers;
      OctetsJoin(HeaderTexts(headers[..n]), [headers[n].0, headers[n].1]);
      OctetsJoin([headers[n].0], [headers[n].1]);
      assert [headers[n].0] + [headers[n].1] == [headers[n].0, headers[n].1];
      OctetsOne(headers[n].0);
      OctetsOne(headers[n].1);
    }
  }

  lemma {:induction false} AttemptsCount(attempts: seq<Attempt>, more: Attempt)
    ensures AttemptBytes(attempts + [more]) == AttemptBytes(attempts) + Len(more.provider) + Len(more.model)
  {
    if attempts == [] {
      assert [more][1..] == [];
    } else {
      assert (attempts + [more])[1..] == attempts[1..] + [more];
      AttemptsCount(attempts[1..], more);
    }
  }

  lemma {:induction false} AttemptsCharged(attempts: seq<Attempt>)
    ensures AttemptBytes(attempts) == Octets(AttemptTexts(attempts))
  {
    if attempts != [] {
      var n := |attempts| - 1;
      var front, last := attempts[..n], attempts[n];
      AttemptsCharged(front);
      AttemptsCount(front, last);
      assert front + [last] == attempts;
      OctetsJoin(AttemptTexts(front) + Held(last.provider), Held(last.model));
      OctetsJoin(AttemptTexts(front), Held(last.provider));
      OctetsHeld(last.provider);
      OctetsHeld(last.model);
    }
  }

  lemma BodiesCharged(r: FlowRecord)
    ensures BodyBytes(r) == Octets(Bodies(r))
  {
    var response: seq<Text> := if r.upstreamResponse.Some? then [r.upstreamResponse.value.octets] else [];
    OctetsHeld(r.inboundBody);
    OctetsHeld(r.normalized);
    OctetsHeld(r.upstreamBody);
    if r.upstreamResponse.Some? { OctetsOne(r.upstreamResponse.value.octets); }
    OctetsJoin(Held(r.inboundBody), Held(r.normalized));
    OctetsJoin(Held(r.inboundBody) + Held(r.normalized), Held(r.upstreamBody));
    OctetsJoin(Held(r.inboundBody) + Held(r.normalized) + Held(r.upstreamBody), response);
    hide Held;
  }

  lemma SixHeld(
      names: seq<Text>, a: Option<Text>, b: Option<Text>, c: Option<Text>, d: Option<Text>, e: Option<Text>,
      f: Option<Text>)
    ensures Octets(names + Held(a) + Held(b) + Held(c) + Held(d) + Held(e) + Held(f))
         == Octets(names) + Len(a) + Len(b) + Len(c) + Len(d) + Len(e) + Len(f)
  {
    OctetsHeld(a);
    OctetsHeld(b);
    OctetsHeld(c);
    OctetsHeld(d);
    OctetsHeld(e);
    OctetsHeld(f);
    hide Held, Octets, Len;
    OctetsJoin(names, Held(a));
    OctetsJoin(names + Held(a), Held(b));
    OctetsJoin(names + Held(a) + Held(b), Held(c));
    OctetsJoin(names + Held(a) + Held(b) + Held(c), Held(d));
    OctetsJoin(names + Held(a) + Held(b) + Held(c) + Held(d), Held(e));
    OctetsJoin(names + Held(a) + Held(b) + Held(c) + Held(d) + Held(e), Held(f));
  }

  lemma ThreeNames(a: Text, b: Text, c: Text)
    ensures Octets([a, b, c]) == |a| + |b| + |c|
  {
    assert [a, b, c] == [a] + [b] + [c];
    OctetsOne(a);
    OctetsOne(b);
    OctetsOne(c);
    OctetsJoin([a] + [b], [c]);
    OctetsJoin([a], [b]);
  }

  /** A record is charged for every octet of every string and body it holds, once. */
  lemma EveryOctetIsCharged(r: FlowRecord)
    ensures SummaryBytes(r) == Octets(Texts(r))
  {
    BodiesCharged(r);
    ThreeNames(r.apiCallId, r.httpMethod, r.uri);
    SixHeld([r.apiCallId, r.httpMethod, r.uri], r.responseId, r.modelRequested, r.modelServed, r.upstreamTarget,
            r.terminalReason, r.clientLabel);
    HeadersCharged(r.headers);
    AttemptsCharged(r.attempts);
    OctetsJoin(Bodies(r), Scalars(r));
    OctetsJoin(Bodies(r) + Scalars(r), HeaderTexts(r.headers));
    OctetsJoin(Bodies(r) + Scalars(r) + HeaderTexts(r.headers), AttemptTexts(r.attempts));
    hide Octets, Bodies, HeaderTexts, AttemptTexts, BodyBytes, Held, Len, HeaderBytes, AttemptBytes;
  }

  /** Setting a body or a scalar that was not set costs exactly its length. */
  lemma SettingCosts(r: FlowRecord, t: Text, truncated: bool)
    ensures r.inboundBody.None? ==> SummaryBytes(r.(inboundBody := Some(t))) == SummaryBytes(r) + |t|
    ensures r.normalized.None? ==> SummaryBytes(r.(normalized := Some(t))) == SummaryBytes(r) + |t|
    ensures r.upstreamBody.None? ==> SummaryBytes(r.(upstreamBody := Some(t))) == SummaryBytes(r) + |t|
    ensures r.upstreamResponse.None? ==>
              SummaryBytes(r.(upstreamResponse := Some(ResponseBody(t, truncated)))) == SummaryBytes(r) + |t|
    ensures r.responseId.None? ==> SummaryBytes(r.(responseId := Some(t))) == SummaryBytes(r) + |t|
    ensures r.modelRequested.None? ==> SummaryBytes(r.(modelRequested := Some(t))) == SummaryBytes(r) + |t|
    ensures r.modelServed.None? ==> SummaryBytes(r.(modelServed := Some(t))) == SummaryBytes(r) + |t|
    ensures r.upstreamTarget.None? ==> SummaryBytes(r.(upstreamTarget := Some(t))) == SummaryBytes(r) + |t|
    ensures r.terminalReason.None? ==> SummaryBytes(r.(terminalReason := Some(t))) == SummaryBytes(r) + |t|
    ensures r.clientLabel.None? ==> SummaryBytes(r.(clientLabel := Some(t))) == SummaryBytes(r) + |t|
  {
  }

  /** A header or an attempt more costs exactly its own strings. */
  lemma AddingCosts(r: FlowRecord, header: (Text, Text), attempt: Attempt)
    ensures SummaryBytes(r.(headers := r.headers + [header])) == SummaryBytes(r) + |header.0| + |header.1|
    ensures SummaryBytes(r.(attempts := r.attempts + [attempt]))
         == SummaryBytes(r) + Len(attempt.provider) + Len(attempt.model)
  {
    HeadersCount(r.headers, header);
    AttemptsCount(r.attempts, attempt);
  }

  /** A record with nothing in it costs nothing. */
  lemma NothingCostsNothing(r: FlowRecord)
    requires r.apiCallId == [] && r.httpMethod == [] && r.uri == [] && r.headers == [] && r.attempts == []
    requires r.inboundBody.None? && r.normalized.None? && r.upstreamBody.None? && r.upstreamResponse.None?
    requires r.responseId.None? && r.modelRequested.None? && r.modelServed.None? && r.upstreamTarget.None?
    requires r.terminalReason.None? && r.clientLabel.None?
    ensures SummaryBytes(r) == 0
  {
  }

  // ---- over a run ----------------------------------------------------------------------

  /** Every string and body of the records in the queue. */
  function StoreTexts(m: map<Text, FlowRecord>, ids: seq<Text>): seq<Text> {
    if ids == [] then [] else (if ids[0] in m then Texts(m[ids[0]]) else []) + StoreTexts(m, ids[1..])
  }

  lemma {:induction false} StoreIsCharged(m: map<Text, FlowRecord>, ids: seq<Text>)
    ensures Octets(StoreTexts(m, ids)) == Total(m, ids)
  {
    hide Texts, SummaryBytes;
    if ids != [] {
      StoreIsCharged(m, ids[1..]);
      if ids[0] in m { EveryOctetIsCharged(m[ids[0]]); }
      OctetsJoin(if ids[0] in m then Texts(m[ids[0]]) else [], StoreTexts(m, ids[1..]));
    }
  }

  /** Over every run the octets held by all live records together, bodies included,
      never exceed the quota; the queue lists every live record, and none twice. */
  lemma LiveOctetsFitTheQuota(ops: seq<Op>, quota: nat)
    ensures var s := Run(EMPTY, ops, quota);
            && Octets(StoreTexts(s.byId, s.order)) == s.liveBytes <= quota
            && NoDup(s.order) && forall id :: id in s.order <==> id in s.byId
  {
    EmptyStoreIsConsistent(quota);
    EveryRunIsConsistent(EMPTY, ops, quota);
    var s := Run(EMPTY, ops, quota);
    StoreIsCharged(s.byId, s.order);
    hide Run, StoreTexts, Octets, Total;
  }
}
