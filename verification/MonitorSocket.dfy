/** The debug socket: a session that subscribes, replays a snapshot and follows the
    live channel, with every send raced against the expiry of the session. */
module MonitorSocket {
  import opened Base

  /** One opaque frame for the peer. */
  datatype Frame = Frame(id: nat)

  datatype Update = Update(sequence: nat, messages: seq<Frame>)
  datatype Snapshot = Snapshot(lastSequence: nat, messages: seq<Frame>)

  /** What the session is woken with. A lag comes with the snapshot taken for it. */
  datatype Received = Live(update: Update) | Lagged(replacement: Snapshot) | Closed | ExpiryFired

  // ---- sending, raced against expiry ---------------------------------------------

  datatype ReplayOutcome = Completed | Expired | SendFailed

  /** What decides the races of one socket: `delay(p)` is how long send `p` takes
      until it is polled, `gone(p)` whether the peer is then found gone; the expiry
      is ready from `deadline` on. */
  datatype Line = Line(deadline: nat, delay: nat -> nat, gone: nat -> bool)

  /** The time the first `n` sends take. */
  function Elapsed(delay: nat -> nat, n: nat): nat {
    if n == 0 then 0 else Elapsed(delay, n - 1) + delay(n - 1)
  }

  /** Send `p` gets its frame out, when `idle` has been spent outside of sends. */
  predicate Passes(line: Line, idle: nat, p: nat) {
    idle + Elapsed(line.delay, p + 1) < line.deadline && !line.gone(p)
  }

  /** Of a batch of `n` frames whose first send is `p`, exactly `k` get out: each of
      the first `k` sends passes, and the next, if there is one, does not. */
  ghost predicate GetsOut(line: Line, idle: nat, p: nat, n: nat, k: nat) {
    && k <= n
    && (forall q :: p <= q < p + k ==> Passes(line, idle, q))
    && (k < n ==> !Passes(line, idle, p + k))
  }

  /** The peer's side of the socket, with the expiry timer armed. */
  class Wire {
    var frames: seq<Frame>
    var times: seq<nat>
    var closeSent: bool
    var clock: nat
    var polls: nat
    ghost var idle: nat
    const line: Line

    /** The clock is what was waited and what the sends took; every frame went out
        before the deadline, in time order. */
    ghost predicate Valid()
      reads this
    {
      && clock == idle + Elapsed(line.delay, polls)
      && |times| == |frames|
      && (forall i :: 0 <= i < |times| ==> times[i] < line.deadline && times[i] <= clock)
      && (forall i, j :: 0 <= i < j < |times| ==> times[i] <= times[j])
    }

    constructor (line: Line)
      ensures Valid() && frames == [] && !closeSent && clock == 0 && polls == 0
      ensures this.line == line
    {
      this.line := line;
      frames, times, closeSent, clock, polls, idle := [], [], false, 0, 0, 0;
    }

    /** One send against the expiry; polled together, the expiry wins. */
    method SendOrExpire(message: Frame) returns (outcome: ReplayOutcome)
      requires Valid()
      modifies this
      ensures Valid() && closeSent == old(closeSent) && idle == old(idle) && polls == old(polls) + 1
      ensures outcome.Completed? <==> Passes(line, idle, old(polls))
      ensures outcome.Expired? <==> clock >= line.deadline
      ensures frames == if outcome.Completed? then old(frames) + [message] else old(frames)
    {
      var delay, gone := line.delay(polls), line.gone(polls);
      clock := clock + delay;
      polls := polls + 1;
      if clock >= line.deadline { return Expired; }
      if gone { return SendFailed; }
      frames, times := frames + [message], times + [clock];
      return Completed;
    }

    method SendClose()
      requires Valid()
      modifies this`closeSent
      ensures Valid() && closeSent
    {
      closeSent := true;
    }

    method Wait(duration: nat)
      requires Valid()
      modifies this`clock, this`idle
      ensures Valid() && clock == old(clock) + duration && idle == old(idle) + duration
    {
      clock := clock + duration;
      idle := idle + duration;
    }
  }

  /** Sends the batch frame by frame and stops at the first send that does not pass:
      because the expiry was ready, else because the peer was gone. */
  method ReplaySnapshot(messages: seq<Frame>, wire: Wire) returns (outcome: ReplayOutcome, ghost k: nat)
    requires wire.Valid()
    modifies wire
    ensures wire.Valid() && wire.closeSent == old(wire.closeSent) && wire.idle == old(wire.idle)
    ensures GetsOut(wire.line, wire.idle, old(wire.polls), |messages|, k)
    ensures wire.frames == old(wire.frames) + messages[..k]
    ensures wire.polls == old(wire.polls) + k + if k < |messages| then 1 else 0
    ensures outcome.Completed? <==> k == |messages|
    ensures outcome.Expired? <==> k < |messages| && wire.clock >= wire.line.deadline
  {
    k := 0;
    for i := 0 to |messages|
      invariant wire.Valid() && k == i && wire.closeSent == old(wire.closeSent) && wire.idle == old(wire.idle)
      invariant wire.frames == old(wire.frames) + messages[..i] && wire.polls == old(wire.polls) + i
      invariant forall q :: old(wire.polls) <= q < old(wire.polls) + i ==> Passes(wire.line, wire.idle, q)
    {
      var sent := wire.SendOrExpire(messages[i]);
      if sent.Expired? { return Expired, k; }
      if sent.SendFailed? { return SendFailed, k; }
      assert messages[..i + 1] == messages[..i] + [messages[i]];
      k := k + 1;
    }
    assert messages[..|messages|] == messages;
    return Completed, k;
  }

  // ---- the session ----------------------------------------------------------------

  /** A session that has completed a snapshot. `frames` is everything sent so far,
      `base` where the latest completed snapshot starts in it, `since` the updates
      delivered whole after it. */
  datatype Session = Session(lastSequence: nat, snapshot: seq<Frame>, since: seq<Update>, frames: seq<Frame>, base: nat,
      ended: bool)

  function Opening(snap: Snapshot): Session {
    Session(snap.lastSequence, snap.messages, [], snap.messages, 0, false)
  }

  function Batch(s: Session, r: Received): seq<Frame> {
    match r
    case Live(u) => if u.sequence <= s.lastSequence then [] else u.messages
    case Lagged(snap) => snap.messages
    case Closed => []
    case ExpiryFired => []
  }

  /** The session after one wake-up of whose batch `k` frames got out. Skipping an
      old update and losing the peer in the middle of a batch are different things:
      only a completed snapshot moves `lastSequence`. */
  function React(s: Session, r: Received, k: nat): Session {
    var whole := k >= |Batch(s, r)|;
    if s.ended then s
    else
      match r
      case Live(u) =>
        if u.sequence <= s.lastSequence then s
        else if whole then s.(frames := s.frames + u.messages, since := s.since + [u])
        else s.(frames := s.frames + u.messages[..k], ended := true)
      case Lagged(snap) =>
        if whole then Session(snap.lastSequence, snap.messages, [], s.frames + snap.messages, |s.frames|, false)
        else s.(frames := s.frames + snap.messages[..k], ended := true)
      case Closed => s.(ended := true)
      case ExpiryFired => s.(ended := true)
  }

  /** The session after as many wake-ups as there are cuts. */
  function Play(s: Session, script: seq<Received>, cuts: seq<nat>): Session
    requires |cuts| <= |script|
  {
    if cuts == [] then s
    else React(Play(s, script, cuts[..|cuts| - 1]), script[|cuts| - 1], cuts[|cuts| - 1])
  }

  lemma ReactSends(s: Session, r: Received, k: nat)
    requires !s.ended && k <= |Batch(s, r)|
    ensures React(s, r, k).frames == s.frames + Batch(s, r)[..k]
    ensures React(s, r, k).ended <==> r.Closed? || r.ExpiryFired? || k < |Batch(s, r)|
    ensures React(s, r, k).lastSequence == if r.Lagged? && k == |Batch(s, r)| then r.replacement.lastSequence
        else s.lastSequence
  {
  }

  /** What was waited before the first `n` wake-ups. */
  function Waited(waits: seq<nat>, n: nat): nat
    requires n <= |waits|
  {
    if n == 0 then 0 else Waited(waits, n - 1) + waits[n - 1]
  }

  /** Wake-up `i` finds the session running, and of its batch exactly the frames get
      out that the line lets out then. */
  ghost predicate Woken(
      line: Line, idle: nat, first: Snapshot, script: seq<Received>, waits: seq<nat>, cuts: seq<nat>, i: nat)
    requires i < |cuts| <= |script| == |waits|
  {
    var s := Play(Opening(first), script, cuts[..i]);
    !s.ended && GetsOut(line, idle + Waited(waits, i + 1), |s.frames|, |Batch(s, script[i])|, cuts[i])
  }

  ghost predicate AllWoken(
      line: Line, idle: nat, first: Snapshot, script: seq<Received>, waits: seq<nat>, cuts: seq<nat>)
    requires |cuts| <= |script| == |waits|
  {
    forall i :: 0 <= i < |cuts| ==> Woken(line, idle, first, script, waits, cuts, i)
  }

  /** How a socket is served that has waited `idle` before its first send: the
      snapshot as far as the line lets it out, and once that is out whole, every
      wake-up in turn until the session ends or nothing more is received. */
  ghost predicate Served(
      line: Line, idle: nat, first: Snapshot, script: seq<Received>, waits: seq<nat>, opening: nat, cuts: seq<nat>)
    requires |waits| == |script|
  {
    && GetsOut(line, idle, 0, |first.messages|, opening)
    && |cuts| <= |script|
    && (opening < |first.messages| ==> cuts == [])
    && AllWoken(line, idle, first, script, waits, cuts)
    && (opening == |first.messages| && |cuts| < |script| ==> Play(Opening(first), script, cuts).ended)
  }

  function Sent(first: Snapshot, script: seq<Received>, opening: nat, cuts: seq<nat>): seq<Frame>
    requires |cuts| <= |script|
  {
    if opening < |first.messages| then first.messages[..opening] else Play(Opening(first), script, cuts).frames
  }

  /** A send was started that did not pass. */
  predicate CutShort(first: Snapshot, script: seq<Received>, opening: nat, cuts: seq<nat>)
    requires |cuts| <= |script|
  {
    || opening < |first.messages|
    || (cuts != [] && cuts[|cuts| - 1] < |Batch(Play(Opening(first), script, cuts[..|cuts| - 1]), script[|cuts| - 1])|)
  }

  /** The session ended by expiry: between batches, or in a send that was polled
      with the expiry ready. */
  predicate EndedByExpiry(
      line: Line, idle: nat, first: Snapshot, script: seq<Received>, waits: seq<nat>, opening: nat, cuts: seq<nat>)
    requires |cuts| <= |script| == |waits|
  {
    if CutShort(first, script, opening, cuts)
    then idle + Waited(waits, |cuts|) + Elapsed(line.delay, |Sent(first, script, opening, cuts)| + 1) >= line.deadline
    else cuts != [] && script[|cuts| - 1].ExpiryFired?
  }

  /** The program's loop over a subscription that delivers `script`, waiting
      `waits[i]` before wake-up `i`. `cuts` says how many frames of each batch got
      out; `Served` leaves no choice in it. */
  method DebugSocket(first: Snapshot, script: seq<Received>, waits: seq<nat>, wire: Wire)
    returns (ghost opening: nat, ghost cuts: seq<nat>)
    requires wire.Valid() && wire.frames == [] && wire.polls == 0 && !wire.closeSent && |waits| == |script|
    modifies wire
    ensures wire.Valid()
    ensures Served(wire.line, old(wire.idle), first, script, waits, opening, cuts)
    ensures wire.frames == Sent(first, script, opening, cuts)
    ensures wire.closeSent <==> EndedByExpiry(wire.line, old(wire.idle), first, script, waits, opening, cuts)
    ensures wire.closeSent ==> wire.clock >= wire.line.deadline
  {
    hide Play, React, GetsOut, Passes, Elapsed, AllWoken, Served, Sent, EndedByExpiry, Waited;
    cuts := [];
    var outcome;
    outcome, opening := ReplaySnapshot(first.messages, wire);
    OpeningFacts(wire.line, wire.idle, first, script, waits, opening);
    match outcome {
      case Expired => wire.SendClose(); return;
      case SendFailed => return;
      case Completed =>
    }
    var lastSequence := first.lastSequence;
    ghost var s := Opening(first);
    var i := 0;
    while i < |script|
      invariant i <= |script| && |cuts| == i && !s.ended
      invariant wire.Valid() && !wire.closeSent
      invariant s == Play(Opening(first), script, cuts)
          && AllWoken(wire.line, old(wire.idle), first, script, waits, cuts)
      invariant wire.frames == s.frames && lastSequence == s.lastSequence
      invariant wire.polls == |s.frames| && wire.idle == old(wire.idle) + Waited(waits, i)
      invariant !EndedByExpiry(wire.line, old(wire.idle), first, script, waits, opening, cuts)
      invariant Sent(first, script, opening, cuts) == s.frames
      invariant i == |script| ==> Served(wire.line, old(wire.idle), first, script, waits, opening, cuts)
    {
      wire.Wait(waits[i]);
      WaitedStep(waits, i);
      var received := script[i];
      i := i + 1;
      ghost var k;
      match received {
        case ExpiryFired =>
          cuts, s := PlayOn(wire.line, old(wire.idle), first, script, waits, cuts, 0);
          wire.Wait(SatSub(wire.line.deadline, wire.clock));
          wire.SendClose();
          return;
        case Closed =>
          cuts, s := PlayOn(wire.line, old(wire.idle), first, script, waits, cuts, 0);
          return;
        case Live(update) =>
          if update.sequence <= lastSequence {
            cuts, s := PlayOn(wire.line, old(wire.idle), first, script, waits, cuts, 0);
          } else {
            outcome, k := ReplaySnapshot(update.messages, wire);
            cuts, s := PlayOn(wire.line, old(wire.idle), first, script, waits, cuts, k);
            match outcome {
              case Completed =>
              case Expired => wire.SendClose(); return;
              case SendFailed => return;
            }
          }
        case Lagged(replacement) =>
          outcome, k := ReplaySnapshot(replacement.messages, wire);
          cuts, s := PlayOn(wire.line, old(wire.idle), first, script, waits, cuts, k);
          match outcome {
            case Completed => lastSequence := replacement.lastSequence;
            case Expired => wire.SendClose(); return;
            case SendFailed => return;
          }
      }
    }
  }

  lemma OpeningFacts(line: Line, idle: nat, first: Snapshot, script: seq<Received>, waits: seq<nat>, opening: nat)
    requires GetsOut(line, idle, 0, |first.messages|, opening) && |script| == |waits|
    ensures opening <= |first.messages| && first.messages[..|first.messages|] == first.messages
    ensures Waited(waits, 0) == 0 && AllWoken(line, idle, first, script, waits, [])
    ensures Sent(first, script, opening, []) == first.messages[..opening]
    ensures opening < |first.messages| || script == [] ==> Served(line, idle, first, script, waits, opening, [])
    ensures Play(Opening(first), script, []) == Opening(first)
    ensures EndedByExpiry(line, idle, first, script, waits, opening, []) <==>
            opening < |first.messages| && idle + Elapsed(line.delay, opening + 1) >= line.deadline
  {
  }

  lemma WaitedStep(waits: seq<nat>, i: nat)
    requires i < |waits|
    ensures Waited(waits, i + 1) == Waited(waits, i) + waits[i]
  {
  }

  /** One wake-up more, and where it leaves the session. */
  ghost method PlayOn(
      line: Line, idle: nat, first: Snapshot, script: seq<Received>, waits: seq<nat>, cuts: seq<nat>, k: nat)
    returns (longer: seq<nat>, s: Session)
    requires |cuts| < |script| == |waits| && GetsOut(line, idle, 0, |first.messages|, |first.messages|)
    requires AllWoken(line, idle, first, script, waits, cuts) && !Play(Opening(first), script, cuts).ended
    requires var before := Play(Opening(first), script, cuts);
             var batch := |Batch(before, script[|cuts|])|;
             GetsOut(line, idle + Waited(waits, |cuts| + 1), |before.frames|, batch, k) || (batch == 0 && k == 0)
    ensures longer == cuts + [k] && s == Play(Opening(first), script, longer)
    ensures AllWoken(line, idle, first, script, waits, longer)
    ensures Sent(first, script, |first.messages|, longer) == s.frames
    ensures s.ended || |longer| == |script| ==> Served(line, idle, first, script, waits, |first.messages|, longer)
    ensures var before, r := Play(Opening(first), script, cuts), script[|cuts|];
            && k <= |Batch(before, r)|
            && s.frames == before.frames + Batch(before, r)[..k]
            && (s.ended <==> r.Closed? || r.ExpiryFired? || k < |Batch(before, r)|)
            && s.lastSequence == (if r.Lagged? && k == |Batch(before, r)| then r.replacement.lastSequence
                else before.lastSequence)
            && (EndedByExpiry(line, idle, first, script, waits, |first.messages|, longer) <==>
                if k < |Batch(before, r)|
                    then idle + Waited(waits, |longer|) + Elapsed(line.delay, |s.frames| + 1) >= line.deadline
                else r.ExpiryFired?)
  {
    longer := cuts + [k];
    assert longer[..|longer| - 1] == cuts;
    ReactSends(Play(Opening(first), script, cuts), script[|cuts|], k);
    s := Play(Opening(first), script, longer);
    hide Play, React, Passes, Elapsed, Waited;
    forall j | 0 <= j < |longer| ensures Woken(line, idle, first, script, waits, longer, j) {
      if j < |cuts| {
        assert longer[..j] == cuts[..j];
        assert Woken(line, idle, first, script, waits, cuts, j);
      }
    }
  }

  // ---- what being served means ------------------------------------------------------

  lemma GetsOutOnce(line: Line, idle: nat, p: nat, n: nat, j: nat, k: nat)
    requires GetsOut(line, idle, p, n, j) && GetsOut(line, idle, p, n, k)
    ensures j == k
  {
  }

  lemma {:induction false} CutsAgree(line: Line, idle: nat, first: Snapshot, script: seq<Received>, waits: seq<nat>,
                                     cuts: seq<nat>, cuts': seq<nat>, n: nat)
    requires |cuts| <= |script| && |cuts'| <= |script| == |waits| && n <= |cuts| && n <= |cuts'|
    requires AllWoken(line, idle, first, script, waits, cuts) && AllWoken(line, idle, first, script, waits, cuts')
    ensures cuts[..n] == cuts'[..n]
    decreases n
  {
    hide Play, GetsOut;
    if n > 0 {
      CutsAgree(line, idle, first, script, waits, cuts, cuts', n - 1);
      assert Woken(line, idle, first, script, waits, cuts, n - 1)
          && Woken(line, idle, first, script, waits, cuts', n - 1);
      var s := Play(Opening(first), script, cuts[..n - 1]);
      GetsOutOnce(line, idle + Waited(waits, n), |s.frames|, |Batch(s, script[n - 1])|, cuts[n - 1], cuts'[n - 1]);
      assert cuts[..n] == cuts[..n - 1] + [cuts[n - 1]] && cuts'[..n] == cuts'[..n - 1] + [cuts'[n - 1]];
    }
  }

  lemma RunningBefore(
      line: Line, idle: nat, first: Snapshot, script: seq<Received>, waits: seq<nat>, cuts: seq<nat>, i: nat)
    requires i < |cuts| <= |script| == |waits| && AllWoken(line, idle, first, script, waits, cuts)
    ensures !Play(Opening(first), script, cuts[..i]).ended
  {
    assert Woken(line, idle, first, script, waits, cuts, i);
  }

  /** There is one way to serve a socket: the line, the waits and what is received
      decide every frame. */
  lemma ServedOneWay(line: Line, idle: nat, first: Snapshot, script: seq<Received>, waits: seq<nat>,
                     opening: nat, cuts: seq<nat>, opening': nat, cuts': seq<nat>)
    requires |script| == |waits|
    requires Served(line, idle, first, script, waits, opening, cuts)
        && Served(line, idle, first, script, waits, opening', cuts')
    ensures opening == opening' && cuts == cuts'
  {
    GetsOutOnce(line, idle, 0, |first.messages|, opening, opening');
    hide Play, GetsOut, Waited, AllWoken;
    var n := if |cuts| <= |cuts'| then |cuts| else |cuts'|;
    CutsAgree(line, idle, first, script, waits, cuts, cuts', n);
    assert cuts[..|cuts|] == cuts && cuts'[..|cuts'|] == cuts';
    if n < |cuts'| { RunningBefore(line, idle, first, script, waits, cuts', n); }
    if n < |cuts| { RunningBefore(line, idle, first, script, waits, cuts, n); }
  }

  /** A socket that stops before its subscription does stops for a reason: the expiry,
      the channel closing, or a send that found the peer gone. */
  lemma StopsForAReason(
      line: Line, idle: nat, first: Snapshot, script: seq<Received>, waits: seq<nat>, opening: nat, cuts: seq<nat>)
    requires |script| == |waits| && Served(line, idle, first, script, waits, opening, cuts)
    requires opening < |first.messages| || |cuts| < |script|
    ensures || EndedByExpiry(line, idle, first, script, waits, opening, cuts)
            || (cuts != [] && script[|cuts| - 1].Closed?)
            || (CutShort(first, script, opening, cuts) && line.gone(|Sent(first, script, opening, cuts)|))
  {
    hide Elapsed, React, Batch;
    if opening == |first.messages| && cuts != [] {
      var last := |cuts| - 1;
      assert Woken(line, idle, first, script, waits, cuts, last);
      ReactSends(Play(Opening(first), script, cuts[..last]), script[last], cuts[last]);
    }
  }

  /** The session that is sent every batch whole. */
  function Everything(first: Snapshot, script: seq<Received>): Session {
    if script == [] then Opening(first)
    else
      var before, r := Everything(first, script[..|script| - 1]), script[|script| - 1];
      React(before, r, |Batch(before, r)|)
  }

  lemma {:induction false} EverythingGrows(first: Snapshot, script: seq<Received>, n: nat)
    requires n <= |script|
    ensures |Everything(first, script[..n]).frames| <= |Everything(first, script).frames|
    ensures Everything(first, script[..n]).ended ==> Everything(first, script).ended
    decreases |script|
  {
    if n == |script| {
      assert script[..n] == script;
    } else {
      EverythingGrows(first, script[..|script| - 1], n);
      assert script[..|script| - 1][..n] == script[..n];
    }
  }

  lemma {:induction false} ElapsedGrows(delay: nat -> nat, m: nat, n: nat)
    requires m <= n
    ensures Elapsed(delay, m) <= Elapsed(delay, n)
  {
    if m < n { ElapsedGrows(delay, m, n - 1); }
  }

  lemma {:induction false} WaitedGrows(waits: seq<nat>, m: nat, n: nat)
    requires m <= n <= |waits|
    ensures Waited(waits, m) <= Waited(waits, n)
  {
    if m < n { WaitedGrows(waits, m, n - 1); }
  }

  /** The peer stays for all `n` sends and there is time for them and the waits. */
  ghost predicate Patient(line: Line, idle: nat, waits: seq<nat>, n: nat) {
    idle + Waited(waits, |waits|) + Elapsed(line.delay, n) < line.deadline && forall p :: 0 <= p < n ==> !line.gone(p)
  }

  lemma PatientSendsPass(line: Line, idle: nat, waits: seq<nat>, n: nat, i: nat, p: nat, batch: nat, k: nat)
    requires Patient(line, idle, waits, n) && i <= |waits| && p + batch <= n
    requires GetsOut(line, idle + Waited(waits, i), p, batch, k)
    ensures k == batch
  {
    if k < batch {
      ElapsedGrows(line.delay, p + k + 1, n);
      WaitedGrows(waits, i, |waits|);
    }
  }

  lemma {:induction false} PatientPrefix(
      line: Line, idle: nat, first: Snapshot, script: seq<Received>, waits: seq<nat>, cuts: seq<nat>, i: nat)
    requires |cuts| <= |script| == |waits| && i <= |cuts| && AllWoken(line, idle, first, script, waits, cuts)
    requires !Everything(first, script).ended && Patient(line, idle, waits, |Everything(first, script).frames|)
    ensures Play(Opening(first), script, cuts[..i]) == Everything(first, script[..i])
    decreases i
  {
    if i > 0 {
      PatientPrefix(line, idle, first, script, waits, cuts, i - 1);
      assert cuts[..i][..i - 1] == cuts[..i - 1] && script[..i][..i - 1] == script[..i - 1];
      EverythingGrows(first, script, i);
      var s, r := Everything(first, script[..i - 1]), script[i - 1];
      assert Woken(line, idle, first, script, waits, cuts, i - 1);
      ReactSends(s, r, |Batch(s, r)|);
      assert Everything(first, script[..i]) == React(s, r, |Batch(s, r)|);
      PatientSendsPass(line, idle, waits, |Everything(first, script).frames|, i, |s.frames|, |Batch(s, r)|,
          cuts[i - 1]);
    }
  }

  /** A peer that stays, on a subscription that does not close, with the deadline out
      of reach, is sent every batch whole and no Close. */
  lemma PatientPeerIsSentEverything(
      line: Line, idle: nat, first: Snapshot, script: seq<Received>, waits: seq<nat>, opening: nat, cuts: seq<nat>)
    requires |script| == |waits| && Served(line, idle, first, script, waits, opening, cuts)
    requires !Everything(first, script).ended && Patient(line, idle, waits, |Everything(first, script).frames|)
    ensures Sent(first, script, opening, cuts) == Everything(first, script).frames
    ensures !EndedByExpiry(line, idle, first, script, waits, opening, cuts)
  {
    hide React, GetsOut, AllWoken;
    EverythingGrows(first, script, 0);
    assert Everything(first, script[..0]) == Opening(first);
    assert Waited(waits, 0) == 0;
    PatientSendsPass(line, idle, waits, |Everything(first, script).frames|, 0, 0, |first.messages|, opening);
    PatientPrefix(line, idle, first, script, waits, cuts, |cuts|);
    assert cuts[..|cuts|] == cuts;
    EverythingGrows(first, script, |cuts|);
    assert script[..|script|] == script;
    if |cuts| > 0 { LastIsWhole(line, idle, first, script, waits, cuts); }
  }

  lemma LastIsWhole(line: Line, idle: nat, first: Snapshot, script: seq<Received>, waits: seq<nat>, cuts: seq<nat>)
    requires 0 < |cuts| <= |script| == |waits| && AllWoken(line, idle, first, script, waits, cuts)
    requires !Play(Opening(first), script, cuts).ended
    ensures !CutShort(first, script, |first.messages|, cuts) && !script[|cuts| - 1].ExpiryFired?
  {
    var last := |cuts| - 1;
    assert Woken(line, idle, first, script, waits, cuts, last);
    ReactSends(Play(Opening(first), script, cuts[..last]), script[last], cuts[last]);
  }

  // ---- what the client holds --------------------------------------------------------

  function FramesOf(updates: seq<Update>): seq<Frame> {
    if updates == [] then [] else FramesOf(updates[..|updates| - 1]) + updates[|updates| - 1].messages
  }

  /** Since its last completed snapshot the client was sent that snapshot, then the
      updates delivered since, and nothing else unless the session ended in the
      middle of a batch. */
  ghost predicate HoldsTranscript(s: Session) {
    && s.base <= |s.frames|
    && s.snapshot + FramesOf(s.since) <= s.frames[s.base..]
    && (!s.ended ==> s.frames[s.base..] == s.snapshot + FramesOf(s.since))
  }

  lemma OpeningHolds(snap: Snapshot)
    ensures HoldsTranscript(Opening(snap))
  {
    assert snap.messages + [] == snap.messages;
  }

  lemma ReactKeepsTranscript(s: Session, r: Received, k: nat)
    requires HoldsTranscript(s)
    ensures HoldsTranscript(React(s, r, k))
  {
    hide HoldsTranscript;
    var next, batch := React(s, r, k), Batch(s, r);
    if !s.ended && k >= |batch| && r.Live? && r.update.sequence > s.lastSequence {
      DeliveringHolds(s, r.update);
    } else if !s.ended && k >= |batch| && r.Lagged? {
      RestartingHolds(s, r.replacement);
    } else if next != s {
      EndingHolds(s, if r.Live? || r.Lagged? then batch[..k] else []);
      assert s.frames + [] == s.frames;
    }
  }

  lemma DeliveringHolds(s: Session, u: Update)
    requires HoldsTranscript(s) && !s.ended
    ensures HoldsTranscript(s.(frames := s.frames + u.messages, since := s.since + [u]))
  {
    assert (s.since + [u])[..|s.since|] == s.since;
    assert (s.frames + u.messages)[s.base..] == s.frames[s.base..] + u.messages;
    assert s.snapshot + FramesOf(s.since) + u.messages == s.snapshot + (FramesOf(s.since) + u.messages);
  }

  lemma RestartingHolds(s: Session, snap: Snapshot)
    ensures HoldsTranscript(Session(snap.lastSequence, snap.messages, [], s.frames + snap.messages, |s.frames|, false))
  {
    assert (s.frames + snap.messages)[|s.frames|..] == snap.messages + [];
  }

  lemma EndingHolds(s: Session, partial: seq<Frame>)
    requires HoldsTranscript(s)
    ensures HoldsTranscript(s.(frames := s.frames + partial, ended := true))
  {
    assert (s.frames + partial)[s.base..] == s.frames[s.base..] + partial;
  }

  /** So whatever a subscription delivers, and wherever a send stops, the frames the
      loop put on the wire read as that transcript. */
  lemma {:induction false} PlayKeepsTranscript(first: Snapshot, script: seq<Received>, cuts: seq<nat>)
    requires |cuts| <= |script|
    ensures HoldsTranscript(Play(Opening(first), script, cuts))
    decreases |cuts|
  {
    if cuts == [] {
      OpeningHolds(first);
    } else {
      PlayKeepsTranscript(first, script, cuts[..|cuts| - 1]);
      ReactKeepsTranscript(Play(Opening(first), script, cuts[..|cuts| - 1]), script[|cuts| - 1], cuts[|cuts| - 1]);
    }
  }

  /** The updates a client with a snapshot at `last` still wants. */
  function Fresh(updates: seq<Update>, last: nat): seq<Update> {
    if updates == [] then []
    else
      var u := updates[|updates| - 1];
      Fresh(updates[..|updates| - 1], last) + (if u.sequence > last then [u] else [])
  }

  lemma {:induction false} FreshMeaning(updates: seq<Update>, last: nat, u: Update)
    ensures u in Fresh(updates, last) <==> u in updates && u.sequence > last
  {
    if updates != [] {
      FreshMeaning(updates[..|updates| - 1], last, u);
      assert updates == updates[..|updates| - 1] + [updates[|updates| - 1]];
    }
  }

  lemma {:induction false} NothingFresh(updates: seq<Update>, last: nat)
    requires forall u :: u in updates ==> u.sequence <= last
    ensures Fresh(updates, last) == []
  {
    if updates != [] { NothingFresh(updates[..|updates| - 1], last); }
  }
}
