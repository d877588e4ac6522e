/** The per-phase timestamps of a flow: first write wins, and every write is
    clamped up to the latest phase already measured. The clock is arbitrary: it
    may step backwards between stamps. */
module PhaseClock {
  import opened Base

  datatype Phase = Ingress | Normalization | Routing | FirstContent | StreamEnd | Finalize

  datatype Phases = Phases(
    ingressMs: Option<nat>,
    normalizationDoneMs: Option<nat>,
    routingDecisionMs: Option<nat>,
    firstContentDeltaMs: Option<nat>,
    streamEndMs: Option<nat>,
    finalizeMs: Option<nat>)
  {
    function Get(phase: Phase): Option<nat> {
      match phase
      case Ingress => ingressMs
      case Normalization => normalizationDoneMs
      case Routing => routingDecisionMs
      case FirstContent => firstContentDeltaMs
      case StreamEnd => streamEndMs
      case Finalize => finalizeMs
    }

    function With(phase: Phase, value: Option<nat>): Phases {
      match phase
      case Ingress => this.(ingressMs := value)
      case Normalization => this.(normalizationDoneMs := value)
      case Routing => this.(routingDecisionMs := value)
      case FirstContent => this.(firstContentDeltaMs := value)
      case StreamEnd => this.(streamEndMs := value)
      case Finalize => this.(finalizeMs := value)
    }

    function Fields(): seq<Option<nat>> {
      [ingressMs, normalizationDoneMs, routingDecisionMs, firstContentDeltaMs, streamEndMs, finalizeMs]
    }

    /** The largest measured phase, the floor of the next stamp. */
    function Latest(): Option<nat> {
      Greatest(Fields())
    }

    function Stamp(phase: Phase, now: nat): Phases {
      if Get(phase).Some? then this
      else With(phase, Some(Raised(Latest(), now)))
    }
  }

  const UNMEASURED := Phases(None, None, None, None, None, None)

  function Greatest(fields: seq<Option<nat>>): Option<nat> {
    if fields == [] then None
    else if fields[0].None? then Greatest(fields[1..])
    else if Greatest(fields[1..]).None? then fields[0]
    else Some(Max(fields[0].value, Greatest(fields[1..]).value))
  }

  lemma {:induction false} GreatestBounds(fields: seq<Option<nat>>)
    ensures forall f :: f in fields && f.Some? ==> Greatest(fields).Some? && f.value <= Greatest(fields).value
    ensures Greatest(fields).Some? ==> Greatest(fields) in fields
  {
    if fields != [] {
      GreatestBounds(fields[1..]);
      assert forall f :: f in fields <==> f == fields[0] || f in fields[1..];
    }
  }

  /** One call of a stamp function: the phase and the clock reading. */
  datatype Reading = Reading(phase: Phase, now: nat)

  /** The timings after a history of stamps on a fresh bundle. */
  function Run(h: seq<Reading>): Phases {
    if h == [] then UNMEASURED
    else Run(h[..|h| - 1]).Stamp(h[|h| - 1].phase, h[|h| - 1].now)
  }

  predicate FirstWrite(h: seq<Reading>, i: nat)
    requires i < |h|
  {
    forall j :: 0 <= j < i ==> h[j].phase != h[i].phase
  }

  /** `v` is the greatest clock reading among the first writes up to position `i`. */
  predicate GreatestReading(h: seq<Reading>, i: nat, v: nat)
    requires i < |h|
  {
    && (forall j :: 0 <= j <= i && FirstWrite(h, j) ==> h[j].now <= v)
    && (exists j :: 0 <= j <= i && FirstWrite(h, j) && h[j].now == v)
  }

  predicate Written(h: seq<Reading>, phase: Phase) {
    exists i :: 0 <= i < |h| && h[i].phase == phase
  }

  lemma FirstWriteInPrefix(h: seq<Reading>, n: nat, i: nat)
    requires i < n <= |h|
    ensures FirstWrite(h[..n], i) == FirstWrite(h, i)
  {
    assert forall j :: 0 <= j <= i ==> h[..n][j] == h[j];
  }

  lemma GreatestInPrefix(h: seq<Reading>, n: nat, i: nat, v: nat)
    requires i < n <= |h| && GreatestReading(h[..n], i, v)
    ensures GreatestReading(h, i, v)
  {
    var g := h[..n];
    var w :| 0 <= w <= i && FirstWrite(g, w) && g[w].now == v;
    FirstWriteInPrefix(h, n, w);
    forall j | 0 <= j <= i && FirstWrite(h, j) ensures h[j].now <= v {
      FirstWriteInPrefix(h, n, j);
      assert g[j].now <= v;
    }
  }

  lemma HasFirstWrite(h: seq<Reading>, i: nat) returns (f: nat)
    requires i < |h|
    ensures f <= i && h[f].phase == h[i].phase && FirstWrite(h, f)
  {
    if FirstWrite(h, i) {
      f := i;
    } else {
      var j :| 0 <= j < i && h[j].phase == h[i].phase;
      f := HasFirstWrite(h, j);
    }
  }

  function Rank(phase: Phase): nat {
    match phase
    case Ingress => 0
    case Normalization => 1
    case Routing => 2
    case FirstContent => 3
    case StreamEnd => 4
    case Finalize => 5
  }

  lemma LatestBounds(p: Phases)
    ensures forall phase :: p.Get(phase).Some? ==>
              p.Latest().Some? && p.Get(phase).value <= p.Latest().value
    ensures p.Latest().Some? ==> exists phase :: p.Get(phase) == p.Latest()
  {
    GreatestBounds(p.Fields());
    forall phase ensures p.Get(phase) in p.Fields() {
      assert p.Get(phase) == p.Fields()[Rank(phase)];
    }
    if p.Latest().Some? {
      var i :| 0 <= i < 6 && p.Fields()[i] == p.Latest();
      var phase := [Ingress, Normalization, Routing, FirstContent, StreamEnd, Finalize][i];
      assert p.Get(phase) == p.Fields()[i];
    }
  }

  function Raised(floor: Option<nat>, now: nat): nat {
    if floor.Some? then Max(now, floor.value) else now
  }

  lemma StampLatest(p: Phases, phase: Phase, now: nat)
    requires p.Get(phase).None?
    ensures p.Stamp(phase, now).Get(phase) == Some(Raised(p.Latest(), now))
    ensures p.Stamp(phase, now).Latest() == Some(Raised(p.Latest(), now))
    ensures forall other :: other != phase ==> p.Stamp(phase, now).Get(other) == p.Get(other)
  {
    var q := p.Stamp(phase, now);
    var v := Raised(p.Latest(), now);
    assert q == p.With(phase, Some(v));
    LatestBounds(p);
    LatestBounds(q);
    assert q.Get(phase) == Some(v);
    var top :| q.Get(top) == q.Latest();
    assert top != phase ==> q.Get(top) == p.Get(top);
  }

  lemma LastKeepsGreatest(h: seq<Reading>, v: nat)
    requires |h| > 1 && GreatestReading(h, |h| - 2, v) && !FirstWrite(h, |h| - 1)
    ensures GreatestReading(h, |h| - 1, v)
  {
  }

  lemma LastRaisesGreatest(h: seq<Reading>, floor: Option<nat>)
    requires h != [] && FirstWrite(h, |h| - 1)
    requires |h| > 1 ==> floor.Some? && GreatestReading(h, |h| - 2, floor.value)
    requires |h| == 1 ==> floor.None?
    ensures GreatestReading(h, |h| - 1, Raised(floor, h[|h| - 1].now))
  {
    var n := |h| - 1;
    if n > 0 {
      var j :| 0 <= j <= n - 1 && FirstWrite(h, j) && h[j].now == floor.value;
      var k := if floor.value >= h[n].now then j else n;
      assert FirstWrite(h, k) && h[k].now == Raised(floor, h[n].now);
    }
  }

  /** A phase is set exactly when some stamp of the history named it. */
  lemma {:induction false} SetWhenWritten(h: seq<Reading>, phase: Phase)
    ensures Run(h).Get(phase).Some? <==> Written(h, phase)
  {
    if h != [] {
      var n := |h| - 1;
      SetWhenWritten(h[..n], phase);
      if Run(h[..n]).Get(h[n].phase).None? {
        StampLatest(Run(h[..n]), h[n].phase, h[n].now);
      }
    }
  }

  /** The floor of the next stamp is the greatest reading among all first writes. */
  lemma {:induction false} LatestIsGreatest(h: seq<Reading>)
    ensures h == [] ==> Run(h).Latest().None?
    ensures h != [] ==> Run(h).Latest().Some? && GreatestReading(h, |h| - 1, Run(h).Latest().value)
  {
    if h == [] {
      LatestBounds(UNMEASURED);
    } else {
      var n := |h| - 1;
      var p := Run(h[..n]);
      LatestIsGreatest(h[..n]);
      SetWhenWritten(h[..n], h[n].phase);
      assert FirstWrite(h, n) <==> !Written(h[..n], h[n].phase) by {
        assert forall j :: 0 <= j < n ==> h[..n][j] == h[j];
      }
      if n > 0 { GreatestInPrefix(h, n, n - 1, p.Latest().value); }
      if p.Get(h[n].phase).Some? {
        LastKeepsGreatest(h, p.Latest().value);
      } else {
        StampLatest(p, h[n].phase, h[n].now);
        LastRaisesGreatest(h, p.Latest());
      }
    }
  }

  /** Each phase holds the greatest clock reading among the first writes up to
      its own first write, whatever is stamped afterwards. */
  lemma {:induction false} PhaseHoldsGreatestReading(h: seq<Reading>, i: nat)
    requires i < |h| && FirstWrite(h, i)
    ensures var value := Run(h).Get(h[i].phase); value.Some? && GreatestReading(h, i, value.value)
    decreases |h|
  {
    var n := |h| - 1;
    var p := Run(h[..n]);
    if i < n {
      FirstWriteInPrefix(h, n, i);
      PhaseHoldsGreatestReading(h[..n], i);
      GreatestInPrefix(h, n, i, p.Get(h[i].phase).value);
      MeasuredPhaseIsFinal(h, n, h[i].phase);
    } else {
      SetWhenWritten(h[..n], h[n].phase);
      assert !Written(h[..n], h[n].phase);
      LatestIsGreatest(h);
      StampLatest(p, h[n].phase, h[n].now);
    }
  }

  /** Timestamps never run backwards along the order of first writes, and each is
      at least the clock reading that wrote it. */
  lemma StampOrderIsMonotone(h: seq<Reading>, i: nat, j: nat)
    requires i <= j < |h| && FirstWrite(h, i) && FirstWrite(h, j)
    ensures var p := Run(h);
            && p.Get(h[i].phase).Some? && p.Get(h[j].phase).Some?
            && h[i].now <= p.Get(h[i].phase).value <= p.Get(h[j].phase).value
  {
    PhaseHoldsGreatestReading(h, i);
    PhaseHoldsGreatestReading(h, j);
  }

  /** A measured phase keeps its value through every later stamp. */
  lemma {:induction false} MeasuredPhaseIsFinal(h: seq<Reading>, n: nat, phase: Phase)
    requires n <= |h| && Run(h[..n]).Get(phase).Some?
    ensures Run(h).Get(phase) == Run(h[..n]).Get(phase)
    decreases |h|
  {
    if n < |h| {
      assert h[..|h| - 1][..n] == h[..n];
      MeasuredPhaseIsFinal(h[..|h| - 1], n, phase);
    } else {
      assert h[..n] == h;
    }
  }

  ghost predicate WrittenInPhaseOrder(h: seq<Reading>) {
    forall i, j :: 0 <= i < j < |h| && FirstWrite(h, i) && FirstWrite(h, j) ==>
      Rank(h[i].phase) < Rank(h[j].phase)
  }

  /** The waterfall is sorted whenever the seams first fire in phase order. */
  lemma ChainIsSorted(h: seq<Reading>, a: Phase, b: Phase)
    requires WrittenInPhaseOrder(h)
    requires Rank(a) < Rank(b) && Run(h).Get(a).Some? && Run(h).Get(b).Some?
    ensures Run(h).Get(a).value <= Run(h).Get(b).value
  {
    SetWhenWritten(h, a);
    SetWhenWritten(h, b);
    var wa :| 0 <= wa < |h| && h[wa].phase == a;
    var wb :| 0 <= wb < |h| && h[wb].phase == b;
    var i := HasFirstWrite(h, wa);
    var j := HasFirstWrite(h, wb);
    StampOrderIsMonotone(h, i, j);
  }
}
