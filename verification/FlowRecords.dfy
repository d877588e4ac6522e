/** One flow's record: its fields, the bytes it is charged for, the body-free
    summary the dashboard sends, and the edits the store applies to it. */
module FlowRecords {
  import opened Base
  import opened ScalarCap
  import opened PhaseClock

  /** The address of a flow's claim cell. Copies of a record share the cell, so
      a copy-on-write edit keeps the address. */
  type CellId = nat

  datatype FlowStatus = Open | Completed | Failed | Cancelled

  datatype FlowUsage = FlowUsage(prompt: int, completion: int, total: int, cached: Option<int>, reasoning: Option<int>)

  datatype ClientSource = KeyHash | ConfiguredHeader | UserAgent

  datatype AttemptStatus = Served | AttemptFailed

  datatype AttemptErrorClass = Connect | HttpStatus | Timeout | Stream | Terminal | Other

  datatype AttemptFailoverReason = ProviderFailed | RequestRejected | TerminalNoFailover

  datatype Attempt = Attempt(
    provider: Option<Text>,
    model: Option<Text>,
    startMs: nat,
    endMs: nat,
    firstUpstreamByteMs: Option<nat>,
    status: AttemptStatus,
    errorClass: Option<AttemptErrorClass>,
    failoverReason: Option<AttemptFailoverReason>)

  /** A captured upstream error body; empty octets are a captured empty body. */
  datatype ResponseBody = ResponseBody(octets: Text, truncated: bool)

  datatype FlowRecord = FlowRecord(
    claim: CellId,
    recordSeq: nat,
    apiCallId: Text,
    responseId: Option<Text>,
    httpMethod: Text,
    uri: Text,
    headers: seq<(Text, Text)>,
    inboundBody: Option<Text>,
    normalized: Option<Text>,
    upstreamBody: Option<Text>,
    upstreamResponse: Option<ResponseBody>,
    modelRequested: Option<Text>,
    modelServed: Option<Text>,
    upstreamTarget: Option<Text>,
    usage: Option<FlowUsage>,
    status: FlowStatus,
    startedMs: nat,
    finishedMs: Option<nat>,
    elapsedMs: Option<nat>,
    terminalReason: Option<Text>,
    phases: Phases,
    attempts: seq<Attempt>,
    firstUpstreamByteMs: Option<nat>,
    clientLabel: Option<Text>,
    clientSource: Option<ClientSource>)

  function Len(text: Option<Text>): nat {
    if text.Some? then |text.value| else 0
  }

  function HeaderBytes(headers: seq<(Text, Text)>): nat {
    if headers == [] then 0
    else |headers[0].0| + |headers[0].1| + HeaderBytes(headers[1..])
  }

  function AttemptBytes(attempts: seq<Attempt>): nat {
    if attempts == [] then 0
    else Len(attempts[0].provider) + Len(attempts[0].model) + AttemptBytes(attempts[1..])
  }

  function ResponseBytes(body: Option<ResponseBody>): nat {
    if body.Some? then |body.value.octets| else 0
  }

  function BodyBytes(r: FlowRecord): nat {
    Len(r.inboundBody) + Len(r.normalized) + Len(r.upstreamBody) + ResponseBytes(r.upstreamResponse)
  }

  function ScalarBytes(r: FlowRecord): nat {
    HeaderBytes(r.headers)
    + |r.apiCallId|
    + Len(r.responseId)
    + |r.httpMethod|
    + |r.uri|
    + Len(r.modelRequested)
    + Len(r.modelServed)
    + Len(r.upstreamTarget)
    + Len(r.terminalReason)
    + Len(r.clientLabel)
    + AttemptBytes(r.attempts)
  }

  /** The bytes a record is charged against the quota. */
  function SummaryBytes(r: FlowRecord): nat {
    BodyBytes(r) + ScalarBytes(r)
  }

  predicate HasBody(r: FlowRecord) {
    r.inboundBody.Some? || r.normalized.Some? || r.upstreamBody.Some? || r.upstreamResponse.Some?
  }

  /** The record with its bodies dropped; its watermark does not move. */
  function Shed(r: FlowRecord): FlowRecord {
    r.(inboundBody := None, normalized := None, upstreamBody := None, upstreamResponse := None)
  }

  /** The projection sent to dashboards and snapshots. */
  datatype FlowSummary = FlowSummary(
    apiCallId: Text,
    responseId: Option<Text>,
    httpMethod: Text,
    uri: Text,
    modelRequested: Option<Text>,
    modelServed: Option<Text>,
    upstreamTarget: Option<Text>,
    usage: Option<FlowUsage>,
    status: FlowStatus,
    startedMs: nat,
    finishedMs: Option<nat>,
    elapsedMs: Option<nat>,
    terminalReason: Option<Text>,
    phases: Phases,
    attempts: seq<Attempt>,
    firstUpstreamByteMs: Option<nat>,
    clientLabel: Option<Text>,
    clientSource: Option<ClientSource>)

  function SummaryOf(r: FlowRecord): FlowSummary {
    FlowSummary(r.apiCallId, r.responseId, r.httpMethod, r.uri, r.modelRequested, r.modelServed,
                r.upstreamTarget, r.usage, r.status, r.startedMs, r.finishedMs, r.elapsedMs,
                r.terminalReason, r.phases, r.attempts, r.firstUpstreamByteMs, r.clientLabel, r.clientSource)
  }

  /** What `open` is given; the body and the headers arrive already captured. */
  datatype OpenArgs = OpenArgs(
    apiCallId: Text,
    httpMethod: Text,
    uri: Text,
    headers: seq<(Text, Text)>,
    inboundBody: Option<Text>,
    clientLabel: Option<Text>,
    clientSource: Option<ClientSource>)

  function NewRecord(cell: CellId, args: OpenArgs, now: nat): FlowRecord {
    FlowRecord(
      cell, 0, CapScalar(args.apiCallId), None, CapScalar(args.httpMethod), CapScalar(args.uri), args.headers,
      args.inboundBody, None, None, None, None, None, None, None,
      Open, now, None, None, None,
      UNMEASURED.Stamp(Ingress, now), [], None,
      CapOption(args.clientLabel), args.clientSource)
  }

  /** The closures the store's mutators hand to `update`, one constructor each. */
  datatype Edit =
    | LinkEdit(responseId: Text)
    | UpstreamEdit(target: Option<Text>, model: Option<Text>, body: Option<Text>)
    | ResponseEdit(response: ResponseBody)
    | NormalizedEdit(now: nat, model: Option<Text>, body: Option<Text>)
    | FinalizeEdit(now: nat, elapsed: nat, status: FlowStatus, reason: Option<Text>, provider: Option<Text>)
    | UsageEdit(usage: FlowUsage)
    | AttemptsEdit(attempts: seq<Attempt>, firstByte: Option<nat>)
    | RoutingEdit(now: nat)
    | ContentEdit(now: nat)
    | StreamEndEdit(now: nat)
  {
    /** The mutators that leave the caps to the next caller. */
    predicate SkipsCaps() {
      UsageEdit? || RoutingEdit? || ContentEdit? || StreamEndEdit?
    }
  }

  function ApplyEdit(e: Edit, r: FlowRecord): FlowRecord {
    match e
    case LinkEdit(id) => r.(responseId := Some(id))
    case UpstreamEdit(target, model, body) =>
      r.(upstreamTarget := Or(target, r.upstreamTarget),
         modelServed := Or(model, r.modelServed),
         upstreamBody := Or(body, r.upstreamBody))
    case ResponseEdit(response) => r.(upstreamResponse := Some(response))
    case NormalizedEdit(now, model, body) =>
      r.(phases := r.phases.Stamp(Normalization, now),
         modelRequested := Or(model, r.modelRequested),
         normalized := Or(body, r.normalized))
    case FinalizeEdit(now, elapsed, status, reason, provider) =>
      r.(status := status,
         finishedMs := Some(now),
         elapsedMs := Some(elapsed),
         phases := r.phases.Stamp(PhaseClock.Finalize, now),
         terminalReason := Or(reason, r.terminalReason),
         upstreamTarget := Or(r.upstreamTarget, provider))
    case UsageEdit(usage) => r.(usage := Some(usage))
    case AttemptsEdit(attempts, firstByte) =>
      r.(attempts := if attempts == [] then r.attempts else attempts,
         firstUpstreamByteMs := Or(r.firstUpstreamByteMs, firstByte))
    case RoutingEdit(now) => r.(phases := r.phases.Stamp(Routing, now))
    case ContentEdit(now) => r.(phases := r.phases.Stamp(FirstContent, now))
    case StreamEndEdit(now) => r.(phases := r.phases.Stamp(StreamEnd, now))
  }

  /** Shedding frees exactly the body bytes and shows nothing in the summary. */
  lemma ShedFreesBodies(r: FlowRecord)
    ensures SummaryBytes(Shed(r)) == SummaryBytes(r) - BodyBytes(r)
    ensures SummaryOf(Shed(r)) == SummaryOf(r)
    ensures !HasBody(Shed(r)) && Shed(Shed(r)) == Shed(r)
    ensures !HasBody(r) ==> Shed(r) == r && BodyBytes(r) == 0
  {
  }

  /** The edits that skip the caps charge nothing, so skipping is sound. */
  lemma UncappedEditsAreFree(e: Edit, r: FlowRecord)
    requires e.SkipsCaps()
    ensures SummaryBytes(ApplyEdit(e, r)) == SummaryBytes(r)
  {
  }

  /** No edit touches the identity of a flow: its cell, its id, its route, its
      age. Only finalizing changes the terminal fields and only the attempt trace
      edit changes the trace. */
  lemma EditsKeepIdentity(e: Edit, r: FlowRecord)
    ensures var r' := ApplyEdit(e, r);
            && r'.claim == r.claim && r'.apiCallId == r.apiCallId && r'.uri == r.uri
            && r'.startedMs == r.startedMs && r'.recordSeq == r.recordSeq
            && (!e.LinkEdit? ==> r'.responseId == r.responseId)
            && (!e.FinalizeEdit? ==>
                  r'.status == r.status && r'.terminalReason == r.terminalReason && r'.finishedMs == r.finishedMs)
            && (!e.AttemptsEdit? ==> r'.attempts == r.attempts)
  {
  }
}
