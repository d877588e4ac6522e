/** The hub, its broadcast channel and one session, step by step. A sequence number
    is taken under the hub's lock and the update is published after the lock is let
    go, so two emitters may publish in either order. */
module MonitorChannel {
  import opened MonitorSocket

  datatype Client = Outside | Subscribed | Serving(session: Session) | Refused(sent: seq<Frame>)

  /** `events` is every update numbered so far, `unsent` the numbers not published
      yet, `pos` where the session's receiver stands in `channel`. */
  datatype World = World(events: seq<Update>, unsent: set<nat>, channel: seq<Update>, pos: nat, client: Client)

  const START := World([], {}, [], 0, Outside)

  /** What can happen next. A replay counts as one step with the send that ends it:
      nothing the hub does meanwhile touches the session. `k` of its frames get out. */
  datatype Action =
    | Emit(messages: seq<Frame>)
    | Publish(n: nat)
    | Subscribe
    | Begin(messages: seq<Frame>, k: nat)
    | Poll(k: nat)
    | Lag(to: nat, messages: seq<Frame>, k: nat)
    | Stop(why: Received)

  predicate Enabled(w: World, a: Action) {
    match a
    case Emit(_) => true
    case Publish(n) => n in w.unsent && 0 < n <= |w.events|
    case Subscribe => w.client.Outside?
    case Begin(messages, k) => w.client.Subscribed? && k <= |messages|
    case Poll(k) =>
      w.client.Serving? && !w.client.session.ended && w.pos < |w.channel|
      && k <= |Batch(w.client.session, Live(w.channel[w.pos]))|
    case Lag(to, messages, k) =>
      w.client.Serving? && !w.client.session.ended && w.pos < to <= |w.channel| && k <= |messages|
    case Stop(why) => w.client.Serving? && !w.client.session.ended && (why.Closed? || why.ExpiryFired?)
  }

  function Next(w: World, a: Action): World
    requires Enabled(w, a)
  {
    match a
    case Emit(messages) =>
      var n := |w.events| + 1;
      w.(events := w.events + [Update(n, messages)], unsent := w.unsent + {n})
    case Publish(n) => w.(channel := w.channel + [w.events[n - 1]], unsent := w.unsent - {n})
    case Subscribe => w.(client := Subscribed, pos := |w.channel|)
    case Begin(messages, k) =>
      w.(client := if k < |messages| then Refused(messages[..k]) else Serving(Opening(Snapshot(|w.events|, messages))))
    case Poll(k) =>
      w.(client := Serving(React(w.client.session, Live(w.channel[w.pos]), k)), pos := w.pos + 1)
    case Lag(to, messages, k) =>
      w.(client := Serving(React(w.client.session, Lagged(Snapshot(|w.events|, messages)), k)), pos := to)
    case Stop(why) => w.(client := Serving(React(w.client.session, why, 0)))
  }

  ghost predicate Possible(run: seq<Action>)
    decreases |run|, 0
  {
    run == [] || (Possible(run[..|run| - 1]) && Enabled(After(run[..|run| - 1]), run[|run| - 1]))
  }

  ghost function After(run: seq<Action>): World
    requires Possible(run)
    decreases |run|, 1
  {
    if run == [] then START else Next(After(run[..|run| - 1]), run[|run| - 1])
  }

  // ---- the hub ------------------------------------------------------------------

  ghost predicate Numbered(events: seq<Update>) {
    forall i :: 0 <= i < |events| ==> events[i].sequence == i + 1
  }

  ghost predicate Published(channel: seq<Update>, n: nat) {
    exists i :: 0 <= i < |channel| && channel[i].sequence == n
  }

  ghost predicate FromEvents(channel: seq<Update>, events: seq<Update>) {
    forall i :: 0 <= i < |channel| ==>
      0 < channel[i].sequence <= |events| && events[channel[i].sequence - 1] == channel[i]
  }

  ghost predicate Distinct(updates: seq<Update>) {
    forall i, j :: 0 <= i < j < |updates| ==> updates[i].sequence != updates[j].sequence
  }

  /** Every number is either still unsent or published, never both. */
  ghost predicate Accounted(w: World) {
    && (forall n :: n in w.unsent ==> 0 < n <= |w.events|)
    && (forall n :: 0 < n <= |w.events| ==> (n in w.unsent <==> !Published(w.channel, n)))
  }

  ghost predicate HubSound(w: World) {
    Numbered(w.events) && FromEvents(w.channel, w.events) && Distinct(w.channel) && Accounted(w)
  }

  lemma PublishKeepsHub(w: World, n: nat)
    requires HubSound(w) && Enabled(w, Publish(n))
    ensures HubSound(Next(w, Publish(n)))
  {
    var next := Next(w, Publish(n));
    var c := w.channel;
    assert w.events[n - 1].sequence == n && !Published(c, n);
    forall m: nat ensures Published(next.channel, m) <==> m == n || Published(c, m) {
      assert next.channel[|c|].sequence == n;
      if i :| 0 <= i < |c| && c[i].sequence == m { assert next.channel[i].sequence == m; }
    }
    assert Distinct(next.channel);
    hide Published;
    assert Accounted(next);
  }

  // ---- the session ----------------------------------------------------------------

  /** A running session has been delivered exactly the updates its receiver went
      past, in channel order, less those its last completed snapshot covers. */
  ghost predicate SessionSound(w: World) {
    && w.pos <= |w.channel|
    && (w.client.Serving? ==>
          && HoldsTranscript(w.client.session)
          && w.client.session.lastSequence <= |w.events|
          && (!w.client.session.ended ==>
              w.client.session.since == Fresh(w.channel[..w.pos], w.client.session.lastSequence)))
  }

  ghost predicate Sound(w: World) {
    HubSound(w) && SessionSound(w)
  }

  lemma SnapshotCoversChannel(w: World, to: nat)
    requires HubSound(w) && to <= |w.channel|
    ensures Fresh(w.channel[..to], |w.events|) == []
  {
    forall u | u in w.channel[..to] ensures u.sequence <= |w.events| {
      var i :| 0 <= i < to && w.channel[i] == u;
    }
    NothingFresh(w.channel[..to], |w.events|);
  }

  lemma FreshStep(channel: seq<Update>, pos: nat, last: nat)
    requires pos < |channel|
    ensures Fresh(channel[..pos + 1], last)
        == Fresh(channel[..pos], last) + (if channel[pos].sequence > last then [channel[pos]] else [])
  {
    assert channel[..pos + 1][..pos] == channel[..pos];
  }

  lemma StepKeepsSession(w: World, a: Action)
    requires Sound(w) && Enabled(w, a)
    ensures SessionSound(Next(w, a))
  {
    hide HubSound, HoldsTranscript, Fresh;
    match a {
      case Emit(_) =>
      case Publish(n) => assert (w.channel + [w.events[n - 1]])[..w.pos] == w.channel[..w.pos];
      case Subscribe =>
      case Begin(messages, k) =>
        SnapshotCoversChannel(w, w.pos);
        OpeningHolds(Snapshot(|w.events|, messages));
      case Poll(k) =>
        FreshStep(w.channel, w.pos, w.client.session.lastSequence);
        ReactKeepsTranscript(w.client.session, Live(w.channel[w.pos]), k);
      case Lag(to, messages, k) =>
        SnapshotCoversChannel(w, to);
        ReactKeepsTranscript(w.client.session, Lagged(Snapshot(|w.events|, messages)), k);
      case Stop(why) => ReactKeepsTranscript(w.client.session, why, 0);
    }
  }

  lemma StepKeepsSound(w: World, a: Action)
    requires Sound(w) && Enabled(w, a)
    ensures Sound(Next(w, a))
  {
    StepKeepsSession(w, a);
    if a.Emit? {
    } else if a.Publish? {
      PublishKeepsHub(w, a.n);
    }
  }

  lemma {:induction false} EveryReachableWorldIsSound(run: seq<Action>)
    requires Possible(run)
    ensures Sound(After(run))
    decreases |run|
  {
    if run != [] {
      EveryReachableWorldIsSound(run[..|run| - 1]);
      StepKeepsSound(After(run[..|run| - 1]), run[|run| - 1]);
    }
  }

  // ---- the session is the loop's ---------------------------------------------------

  /** The snapshot the session opened with. */
  ghost function FirstOf(run: seq<Action>): Snapshot
    requires Possible(run)
    decreases |run|
  {
    if run == [] then Snapshot(0, [])
    else
      var front, a := run[..|run| - 1], run[|run| - 1];
      if a.Begin? then Snapshot(|After(front).events|, a.messages) else FirstOf(front)
  }

  /** What the step delivers to the session, with the frames that get out. */
  function Delivered(w: World, a: Action): seq<(Received, nat)>
    requires Enabled(w, a)
  {
    match a
    case Poll(k) => [(Live(w.channel[w.pos]), k)]
    case Lag(_, messages, k) => [(Lagged(Snapshot(|w.events|, messages)), k)]
    case Stop(why) => [(why, 0)]
    case _ => []
  }

  /** What the session's subscription delivered over the run. */
  ghost function ScriptOf(run: seq<Action>): seq<(Received, nat)>
    requires Possible(run)
    decreases |run|
  {
    if run == [] then [] else ScriptOf(run[..|run| - 1]) + Delivered(After(run[..|run| - 1]), run[|run| - 1])
  }

  function Receptions(script: seq<(Received, nat)>): (rs: seq<Received>)
    ensures |rs| == |script|
  {
    if script == [] then [] else Receptions(script[..|script| - 1]) + [script[|script| - 1].0]
  }

  function Cuts(script: seq<(Received, nat)>): (ks: seq<nat>)
    ensures |ks| == |script|
  {
    if script == [] then [] else Cuts(script[..|script| - 1]) + [script[|script| - 1].1]
  }

  lemma {:induction false} PlayIgnoresLater(s: Session, script: seq<Received>, r: Received, cuts: seq<nat>)
    requires |cuts| <= |script|
    ensures Play(s, script + [r], cuts) == Play(s, script, cuts)
    decreases |cuts|
  {
    if cuts != [] { PlayIgnoresLater(s, script, r, cuts[..|cuts| - 1]); }
  }

  lemma PlayOneMore(s: Session, script: seq<(Received, nat)>, r: Received, k: nat)
    ensures var longer := script + [(r, k)];
            Play(s, Receptions(longer), Cuts(longer)) == React(Play(s, Receptions(script), Cuts(script)), r, k)
  {
    var longer := script + [(r, k)];
    assert longer[..|script|] == script;
    assert Cuts(longer)[..|script|] == Cuts(script);
    PlayIgnoresLater(s, Receptions(script), r, Cuts(script));
  }

  /** Each wake-up finds the session running, and gets out no more than its batch. */
  ghost predicate CutsFit(first: Snapshot, rs: seq<Received>, ks: seq<nat>)
    requires |ks| <= |rs|
  {
    forall i :: 0 <= i < |ks| ==> CutFits(first, rs, ks, i)
  }

  ghost predicate CutFits(first: Snapshot, rs: seq<Received>, ks: seq<nat>, i: nat)
    requires i < |ks| <= |rs|
  {
    var s := Play(Opening(first), rs, ks[..i]);
    !s.ended && ks[i] <= |Batch(s, rs[i])|
  }

  ghost predicate PlayedAs(w: World, first: Snapshot, script: seq<(Received, nat)>) {
    if w.client.Serving? then
      && w.client.session == Play(Opening(first), Receptions(script), Cuts(script))
      && CutsFit(first, Receptions(script), Cuts(script))
    else script == [] && (w.client.Refused? ==> |w.client.sent| < |first.messages| && w.client.sent <= first.messages)
  }

  /** The running session is offered a batch that `k` frames of fit. */
  lemma {:induction false} FitsAppend(first: Snapshot, rs: seq<Received>, ks: seq<nat>, r: Received, k: nat)
    requires |ks| == |rs| && CutsFit(first, rs, ks)
    requires var s := Play(Opening(first), rs, ks); !s.ended && k <= |Batch(s, r)|
    ensures CutsFit(first, rs + [r], ks + [k])
  {
    hide Play, React, Batch, Opening;
    forall i | 0 <= i < |ks + [k]| ensures CutFits(first, rs + [r], ks + [k], i) {
      assert (ks + [k])[..i] == ks[..i];
      PlayIgnoresLater(Opening(first), rs, r, ks[..i]);
      if i < |ks| { assert CutFits(first, rs, ks, i); } else { assert ks[..i] == ks; }
    }
    hide CutFits;
  }

  lemma StepIsPlayed(w: World, a: Action, first: Snapshot, script: seq<(Received, nat)>)
    requires Enabled(w, a) && PlayedAs(w, first, script)
    ensures PlayedAs(Next(w, a), if a.Begin? then Snapshot(|w.events|, a.messages) else first, script + Delivered(w, a))
  {
    if Delivered(w, a) != [] {
      var d := Delivered(w, a)[0];
      PlayOneMore(Opening(first), script, d.0, d.1);
      FitsAppend(first, Receptions(script), Cuts(script), d.0, d.1);
      assert (script + [d])[..|script|] == script;
      assert Receptions(script + [d]) == Receptions(script) + [d.0] && Cuts(script + [d]) == Cuts(script) + [d.1];
      hide React, Receptions, Cuts, Play, CutsFit, Batch;
    } else {
      assert script + [] == script;
      hide React;
    }
  }

  /** Every session of every reachable world is the loop's: the session steps on the
      subscription the run delivers, none after the session ended, each with a number
      of frames its batch has. */
  lemma {:induction false} SessionIsPlayed(run: seq<Action>)
    requires Possible(run)
    ensures PlayedAs(After(run), FirstOf(run), ScriptOf(run))
    decreases |run|
  {
    if run != [] {
      var front, a := run[..|run| - 1], run[|run| - 1];
      SessionIsPlayed(front);
      hide React, Receptions, Cuts, Play, CutsFit;
      StepIsPlayed(After(front), a, FirstOf(front), ScriptOf(front));
    }
  }

  /** A line on which sends take no time and the peer is gone after `n` frames. */
  function GoneAfter(n: nat): Line {
    Line(1, (_: nat) => 0, (p: nat) => p >= n)
  }

  function NoWaits(n: nat): (waits: seq<nat>)
    ensures |waits| == n
  {
    seq(n, _ => 0)
  }

  lemma {:induction false} NoTimePasses(n: nat, m: nat, i: nat)
    requires i <= m
    ensures Elapsed(GoneAfter(n).delay, i) == 0 && Waited(NoWaits(m), i) == 0
  {
    if i > 0 { NoTimePasses(n, m, i - 1); }
  }

  lemma PassesBeforeGone(n: nat, p: nat)
    ensures Passes(GoneAfter(n), 0, p) <==> p < n
  {
    NoTimePasses(n, p + 1, p + 1);
  }

  lemma GetsOutBeforeGone(n: nat, p: nat, batch: nat, k: nat)
    requires k <= batch && p + k <= n && (k < batch ==> p + k == n)
    ensures GetsOut(GoneAfter(n), 0, p, batch, k)
  {
    hide Passes;
    forall q | p <= q < p + k ensures Passes(GoneAfter(n), 0, q) { PassesBeforeGone(n, q); }
    PassesBeforeGone(n, p + k);
  }

  lemma {:induction false} FramesGrow(first: Snapshot, rs: seq<Received>, ks: seq<nat>, i: nat)
    requires |ks| <= |rs| && CutsFit(first, rs, ks) && i <= |ks|
    ensures |first.messages| <= |Play(Opening(first), rs, ks[..i]).frames| <= |Play(Opening(first), rs, ks).frames|
    decreases |ks|
  {
    if i < |ks| {
      var front := ks[..|ks| - 1];
      forall j | 0 <= j < |front| ensures CutFits(first, rs, front, j) {
        assert front[..j] == ks[..j] && CutFits(first, rs, ks, j);
      }
      FramesGrow(first, rs, front, i);
      assert front[..i] == ks[..i] && CutFits(first, rs, ks, |front|);
      ReactSends(Play(Opening(first), rs, front), rs[|front|], ks[|front|]);
    } else {
      assert ks[..i] == ks;
      OpeningSent(first, rs, ks);
    }
  }

  lemma {:induction false} OpeningSent(first: Snapshot, rs: seq<Received>, ks: seq<nat>)
    requires |ks| <= |rs|
    ensures |first.messages| <= |Play(Opening(first), rs, ks).frames|
    decreases |ks|
  {
    if ks != [] { OpeningSent(first, rs, ks[..|ks| - 1]); }
  }

  lemma WokenBeforeGone(first: Snapshot, rs: seq<Received>, ks: seq<nat>, i: nat)
    requires i < |ks| == |rs| && CutsFit(first, rs, ks)
    ensures Woken(GoneAfter(|Play(Opening(first), rs, ks).frames|), 0, first, rs, NoWaits(|rs|), ks, i)
  {
    var n := |Play(Opening(first), rs, ks).frames|;
    var s, r := Play(Opening(first), rs, ks[..i]), rs[i];
    assert CutFits(first, rs, ks, i);
    ReactSends(s, r, ks[i]);
    FramesGrow(first, rs, ks, i + 1);
    assert ks[..i + 1][..i] == ks[..i];
    NoTimePasses(n, |rs|, i + 1);
    if ks[i] < |Batch(s, r)| {
      assert i + 1 < |ks| ==> CutFits(first, rs, ks, i + 1);
      assert ks[..|ks|] == ks;
    }
    hide Play, React, GetsOut;
    GetsOutBeforeGone(n, |s.frames|, |Batch(s, r)|, ks[i]);
  }

  /** Every session of every reachable world is served: some line and waits let out
      exactly its frames, and then, there being one way to serve a socket, exactly
      these are what `DebugSocket` puts on the wire. */
  lemma SessionIsServed(run: seq<Action>) returns (line: Line, waits: seq<nat>)
    requires Possible(run) && After(run).client.Serving?
    ensures |waits| == |ScriptOf(run)|
    ensures var first, rs, ks := FirstOf(run), Receptions(ScriptOf(run)), Cuts(ScriptOf(run));
            && Served(line, 0, first, rs, waits, |first.messages|, ks)
            && Sent(first, rs, |first.messages|, ks) == After(run).client.session.frames
  {
    SessionIsPlayed(run);
    var first, rs, ks := FirstOf(run), Receptions(ScriptOf(run)), Cuts(ScriptOf(run));
    var n := |Play(Opening(first), rs, ks).frames|;
    line, waits := GoneAfter(n), NoWaits(|rs|);
    OpeningSent(first, rs, ks);
    GetsOutBeforeGone(n, 0, |first.messages|, |first.messages|);
    hide Play, Possible, After, ScriptOf, FirstOf, Woken, CutsFit;
    forall i | 0 <= i < |ks| ensures Woken(line, 0, first, rs, waits, ks, i) { WokenBeforeGone(first, rs, ks, i); }
  }

  /** So is a session that did not get past its first snapshot, whatever the
      subscription would have delivered. */
  lemma RefusalIsServed(run: seq<Action>, rs: seq<Received>) returns (line: Line, waits: seq<nat>)
    requires Possible(run) && After(run).client.Refused?
    ensures |waits| == |rs|
    ensures var first, sent := FirstOf(run), After(run).client.sent;
            Served(line, 0, first, rs, waits, |sent|, []) && Sent(first, rs, |sent|, []) == sent
  {
    SessionIsPlayed(run);
    var first, sent := FirstOf(run), After(run).client.sent;
    line, waits := GoneAfter(|sent|), NoWaits(|rs|);
    GetsOutBeforeGone(|sent|, 0, |first.messages|, |sent|);
    hide Possible, After, FirstOf;
  }

  // ---- what a client can rely on ------------------------------------------------

  ghost predicate Running(w: World) {
    w.client.Serving? && !w.client.session.ended
  }

  /** The updates the receiver went past. */
  function Past(w: World): seq<Update> {
    if w.pos <= |w.channel| then w.channel[..w.pos] else w.channel
  }

  ghost predicate Unread(w: World, u: Update) {
    exists i :: w.pos <= i < |w.channel| && w.channel[i] == u
  }

  /** No gap: in any reachable world, an update the client's snapshot does not cover
      has been delivered, or is ahead of its receiver, or is not published yet;
      exactly one of the three, across any number of lags. */
  lemma NoGap(run: seq<Action>, n: nat)
    requires Possible(run) && Running(After(run)) && After(run).client.session.lastSequence < n <= |After(run).events|
    ensures var w := After(run);
            var u := w.events[n - 1];
            && (u in w.client.session.since || Unread(w, u) || n in w.unsent)
            && !(u in w.client.session.since && Unread(w, u))
            && !(n in w.unsent && (u in w.client.session.since || Unread(w, u)))
  {
    EveryReachableWorldIsSound(run);
    var w := After(run);
    var u := w.events[n - 1];
    FreshMeaning(w.channel[..w.pos], w.client.session.lastSequence, u);
    assert u.sequence == n && (u in w.client.session.since <==> u in w.channel[..w.pos]);
    WhereItIs(w, n);
  }

  lemma WhereItIs(w: World, n: nat)
    requires HubSound(w) && w.pos <= |w.channel| && 0 < n <= |w.events|
    ensures var u := w.events[n - 1];
            && (u in w.channel[..w.pos] || Unread(w, u) || n in w.unsent)
            && !(u in w.channel[..w.pos] && Unread(w, u))
            && !(n in w.unsent && (u in w.channel[..w.pos] || Unread(w, u)))
  {
    var c, u := w.channel, w.events[n - 1];
    assert u.sequence == n;
    if i :| 0 <= i < |c| && c[i].sequence == n {
      assert Published(c, n) && c[i] == u;
      assert forall j :: 0 <= j < |c| && j != i ==> c[j] != u;
      assert i < w.pos ==> c[..w.pos][i] == u;
      hide HubSound;
    } else {
      assert !Published(c, n);
      assert forall j :: 0 <= j < |c| ==> c[j] != u;
      hide HubSound;
    }
  }

  lemma {:induction false} FreshKeepsDistinct(updates: seq<Update>, last: nat)
    requires Distinct(updates)
    ensures Distinct(Fresh(updates, last))
  {
    if updates != [] {
      var front, u := updates[..|updates| - 1], updates[|updates| - 1];
      FreshKeepsDistinct(front, last);
      forall i | 0 <= i < |Fresh(front, last)| ensures Fresh(front, last)[i].sequence != u.sequence {
        FreshMeaning(front, last, Fresh(front, last)[i]);
        var j :| 0 <= j < |front| && front[j] == Fresh(front, last)[i];
        assert updates[j] == front[j];
      }
    }
  }

  /** No duplicate: since its last completed snapshot a client is delivered no
      sequence number twice, and none the snapshot covers. */
  lemma NoDuplicate(run: seq<Action>)
    requires Possible(run) && Running(After(run))
    ensures Distinct(After(run).client.session.since)
    ensures forall u :: u in After(run).client.session.since ==>
              After(run).client.session.lastSequence < u.sequence <= |After(run).events|
                && After(run).events[u.sequence - 1] == u
  {
    EveryReachableWorldIsSound(run);
    var w := After(run);
    hide HoldsTranscript, Possible, After;
    var read := w.channel[..w.pos];
    assert Distinct(read);
    FreshKeepsDistinct(read, w.client.session.lastSequence);
    forall u | u in w.client.session.since
        ensures w.client.session.lastSequence < u.sequence <= |w.events| && w.events[u.sequence - 1] == u {
      FreshMeaning(read, w.client.session.lastSequence, u);
      var i :| 0 <= i < |read| && read[i] == u;
      assert w.channel[i] == u;
    }
  }

  /** A client that has read everything, with nothing left to publish, holds every
      update above its snapshot. */
  lemma CaughtUp(run: seq<Action>, n: nat)
    requires Possible(run) && Running(After(run))
    requires After(run).pos == |After(run).channel| && After(run).unsent == {}
    requires After(run).client.session.lastSequence < n <= |After(run).events|
    ensures After(run).events[n - 1] in After(run).client.session.since
  {
    NoGap(run, n);
  }

  // ---- order ------------------------------------------------------------------------

  ghost predicate Increasing(updates: seq<Update>) {
    forall i, j :: 0 <= i < j < |updates| ==> updates[i].sequence < updates[j].sequence
  }

  /** The updates above `last` come in number order; the others may come as they like. */
  ghost predicate FreshInOrder(updates: seq<Update>, last: nat) {
    forall i, j :: 0 <= i < j < |updates| && updates[i].sequence > last && updates[j].sequence > last ==>
      updates[i].sequence < updates[j].sequence
  }

  lemma {:induction false} FreshOrderExactly(updates: seq<Update>, last: nat)
    ensures Increasing(Fresh(updates, last)) <==> FreshInOrder(updates, last)
  {
    if updates != [] {
      var n := |updates| - 1;
      var front, u := updates[..n], updates[n];
      FreshOrderExactly(front, last);
      if u.sequence > last {
        hide Increasing, AllUnder, AllBelow, FreshInOrder;
        IncreasingAppend(Fresh(front, last), u);
        FreshBelow(front, last, u.sequence);
        assert Fresh(updates, last) == Fresh(front, last) + [u];
      } else {
        assert Fresh(updates, last) == Fresh(front, last);
      }
    }
  }

  ghost predicate AllBelow(updates: seq<Update>, last: nat, n: nat) {
    forall i :: 0 <= i < |updates| && updates[i].sequence > last ==> updates[i].sequence < n
  }

  ghost predicate AllUnder(updates: seq<Update>, n: nat) {
    forall i :: 0 <= i < |updates| ==> updates[i].sequence < n
  }

  lemma IncreasingAppend(news: seq<Update>, u: Update)
    ensures Increasing(news + [u]) <==> Increasing(news) && AllUnder(news, u.sequence)
  {
    var longer := news + [u];
    assert forall i :: 0 <= i < |news| ==> longer[i] == news[i];
    assert longer[|news|] == u;
  }

  lemma FreshBelow(front: seq<Update>, last: nat, n: nat)
    ensures AllUnder(Fresh(front, last), n) <==> AllBelow(front, last, n)
  {
    var news := Fresh(front, last);
    if AllUnder(news, n) {
      forall i | 0 <= i < |front| && front[i].sequence > last ensures front[i].sequence < n {
        FreshMeaning(front, last, front[i]);
        var j :| 0 <= j < |news| && news[j] == front[i];
      }
    }
    if AllBelow(front, last, n) {
      forall j | 0 <= j < |news| ensures news[j].sequence < n {
        FreshMeaning(front, last, news[j]);
        var i :| 0 <= i < |front| && front[i] == news[j];
      }
    }
  }

  /** A client is sent its updates in number order if and only if the updates its
      receiver went past were published in number order, those its snapshot covers
      aside. Swaps below the snapshot, or ahead of the receiver, do no harm. */
  lemma DeliveredInOrderExactly(run: seq<Action>)
    requires Possible(run) && Running(After(run))
    ensures var w := After(run);
            Increasing(w.client.session.since) <==> FreshInOrder(Past(w), w.client.session.lastSequence)
  {
    EveryReachableWorldIsSound(run);
    FreshOrderExactly(After(run).channel[..After(run).pos], After(run).client.session.lastSequence);
  }

  ghost predicate PublishedIn(updates: seq<Update>, n: nat, m: nat)
    requires n <= |updates|
  {
    exists j :: 0 <= j < n && updates[j].sequence == m
  }

  /** Before an update above `last` come all the numbers between. */
  ghost predicate Gapless(updates: seq<Update>, last: nat) {
    forall i, m :: 0 <= i < |updates| && last < m < updates[i].sequence ==> PublishedIn(updates, i, m)
  }

  /** `updates` are the events right after number `last`, none left out. */
  ghost predicate Consecutive(updates: seq<Update>, events: seq<Update>, last: nat) {
    last + |updates| <= |events| && updates == events[last..last + |updates|]
  }

  lemma {:induction false} ConsecutiveExactly(updates: seq<Update>, events: seq<Update>, last: nat)
    requires Numbered(events) && FromEvents(updates, events) && Distinct(updates) && last <= |events|
    ensures Consecutive(Fresh(updates, last), events, last) <==> Gapless(updates, last)
  {
    if updates != [] {
      var n := |updates| - 1;
      var front, u := updates[..n], updates[n];
      assert forall i :: 0 <= i < n ==> front[i] == updates[i];
      ConsecutiveExactly(front, events, last);
      GaplessAppend(updates, last);
      if u.sequence > last {
        ConsecutiveAppend(Fresh(front, last), events, last, u);
        if Consecutive(Fresh(front, last), events, last) { NextInLine(updates, events, last); }
      }
    }
  }

  lemma GaplessAppend(updates: seq<Update>, last: nat)
    requires updates != []
    ensures var n := |updates| - 1;
            Gapless(updates, last) <==>
              Gapless(updates[..n], last) && forall m :: last < m < updates[n].sequence ==>
                  PublishedIn(updates[..n], n, m)
  {
    var n := |updates| - 1;
    var front := updates[..n];
    forall i, m | 0 <= i <= n ensures PublishedIn(updates, i, m) <==> PublishedIn(front, i, m) {
      if j :| 0 <= j < i && updates[j].sequence == m { assert front[j].sequence == m; }
      if j :| 0 <= j < i && front[j].sequence == m { assert updates[j].sequence == m; }
    }
    hide PublishedIn;
    assert forall i :: 0 <= i < n ==> front[i] == updates[i];
  }

  lemma ConsecutiveAppend(news: seq<Update>, events: seq<Update>, last: nat, u: Update)
    requires Numbered(events) && 0 < u.sequence <= |events| && events[u.sequence - 1] == u
    ensures Consecutive(news + [u], events, last)
       <==> Consecutive(news, events, last) && u.sequence == last + |news| + 1
  {
    var n := last + |news|;
    if Consecutive(news + [u], events, last) {
      assert (news + [u])[..|news|] == news && (news + [u])[|news|] == u;
      assert events[last..n + 1][..|news|] == events[last..n] && events[last..n + 1][|news|] == events[n];
    }
  }

  /** Consecutive news are every number up to some top. */
  lemma NewsAreUpTo(front: seq<Update>, events: seq<Update>, last: nat, m: nat)
    requires Numbered(events) && FromEvents(front, events) && Consecutive(Fresh(front, last), events, last) && m > last
    ensures PublishedIn(front, |front|, m) <==> m <= last + |Fresh(front, last)|
  {
    var news := Fresh(front, last);
    forall i | 0 <= i < |news| ensures news[i] == events[last + i] && news[i].sequence == last + i + 1 {
      assert events[last..last + |news|][i] == events[last + i];
    }
    hide Fresh;
    if m <= last + |news| {
      FreshMeaning(front, last, news[m - 1 - last]);
      var j :| 0 <= j < |front| && front[j] == news[m - 1 - last];
    } else if j :| 0 <= j < |front| && front[j].sequence == m {
      FreshMeaning(front, last, front[j]);
    }
  }

  /** The one update that leaves no gap is the next. */
  lemma NextInLine(updates: seq<Update>, events: seq<Update>, last: nat)
    requires Numbered(events) && FromEvents(updates, events) && Distinct(updates) && updates != []
    requires updates[|updates| - 1].sequence > last && Consecutive(Fresh(updates[..|updates| - 1], last), events, last)
    ensures var n := |updates| - 1;
            (forall m :: last < m < updates[n].sequence ==> PublishedIn(updates[..n], n, m))
            <==> updates[n].sequence == last + |Fresh(updates[..n], last)| + 1
  {
    var n := |updates| - 1;
    var front, u := updates[..n], updates[n];
    assert FromEvents(front, events);
    forall m | m > last ensures PublishedIn(front, n, m) <==> m <= last + |Fresh(front, last)| {
      NewsAreUpTo(front, events, last, m);
    }
    assert !PublishedIn(front, n, u.sequence) by {
      assert forall j :: 0 <= j < n ==> front[j] == updates[j];
    }
    hide Fresh, PublishedIn, Distinct, FromEvents, Consecutive, Numbered;
    var top := last + |Fresh(front, last)|;
    assert !PublishedIn(front, n, top + 1);
  }

  /** The transcript runs on without a hole from the snapshot if and only if, whenever
      the receiver went past an update, it had been past every fresh one numbered
      below it. */
  lemma TranscriptConsecutiveExactly(run: seq<Action>)
    requires Possible(run) && Running(After(run))
    ensures var w := After(run);
            Consecutive(w.client.session.since, w.events, w.client.session.lastSequence)
            <==> Gapless(Past(w), w.client.session.lastSequence)
  {
    EveryReachableWorldIsSound(run);
    hide Possible, After;
    ConsecutiveIn(After(run));
  }

  lemma ConsecutiveIn(w: World)
    requires Sound(w) && Running(w)
    ensures Consecutive(w.client.session.since, w.events, w.client.session.lastSequence)
       <==> Gapless(Past(w), w.client.session.lastSequence)
  {
    assert FromEvents(Past(w), w.events) && Distinct(Past(w));
    hide HoldsTranscript, FromEvents, Distinct, Accounted;
    ConsecutiveExactly(Past(w), w.events, w.client.session.lastSequence);
    hide Consecutive, Gapless;
  }

  /** Emitters publish in the order they took their numbers. */
  ghost predicate PublishesInOrder(run: seq<Action>)
    requires Possible(run)
    decreases |run|
  {
    run == [] || (PublishesInOrder(run[..|run| - 1]) &&
                  (run[|run| - 1].Publish? ==> run[|run| - 1].n == |After(run[..|run| - 1]).channel| + 1))
  }

  lemma {:induction false} OrderedChannel(run: seq<Action>)
    requires Possible(run) && PublishesInOrder(run)
    ensures |After(run).channel| <= |After(run).events|
    ensures After(run).channel == After(run).events[..|After(run).channel|]
    decreases |run|
  {
    if run != [] {
      OrderedChannel(run[..|run| - 1]);
    }
  }

  lemma OrderedIsGapless(events: seq<Update>, pos: nat, last: nat)
    requires Numbered(events) && pos <= |events|
    ensures Gapless(events[..pos], last)
  {
    var read := events[..pos];
    forall i, m | 0 <= i < |read| && last < m < read[i].sequence ensures PublishedIn(read, i, m) {
      assert read[i] == events[i] && read[m - 1] == events[m - 1];
    }
  }

  /** So under in-order publishing the transcript is the snapshot and the consecutive
      updates after it, up to where the receiver stands. */
  lemma OrderedTranscript(run: seq<Action>)
    requires Possible(run) && PublishesInOrder(run) && Running(After(run))
    ensures var w, s := After(run), After(run).client.session;
            && w.pos <= |w.events|
            && s.since == (if w.pos <= s.lastSequence then [] else w.events[s.lastSequence..w.pos])
            && s.base <= |s.frames| && s.frames[s.base..] == s.snapshot + FramesOf(s.since)
  {
    EveryReachableWorldIsSound(run);
    OrderedChannel(run);
    TranscriptConsecutiveExactly(run);
    var w := After(run);
    assert w.channel[..w.pos] == w.events[..w.pos];
    OrderedIsGapless(w.events, w.pos, w.client.session.lastSequence);
    hide Possible, After, HoldsTranscript, Gapless;
    FreshCount(w.events, w.pos, w.client.session.lastSequence);
  }

  lemma {:induction false} FreshCount(events: seq<Update>, pos: nat, last: nat)
    requires Numbered(events) && pos <= |events|
    ensures |Fresh(events[..pos], last)| == if pos <= last then 0 else pos - last
  {
    if pos > 0 {
      assert events[..pos][..pos - 1] == events[..pos - 1];
      FreshCount(events, pos - 1, last);
    }
  }

  /** Both conditions can fail: two emitters, the second publishing first, and the
      client is sent the frames of update 2 before those of update 1. Nothing is lost,
      because a delivered update does not move the number below which updates are
      skipped. */
  lemma SwappedPublishReachesTheClient(hello: seq<Frame>, one: seq<Frame>, two: seq<Frame>)
    ensures exists run :: Possible(run) && Running(After(run))
                       && After(run).client.session.since == [Update(2, two), Update(1, one)]
                       && After(run).client.session.frames == hello + two + one
  {
    var r6 := SwapPublished(hello, one, two);
    var swapped := [Update(2, two), Update(1, one)];
    hide Possible, After;
    var r7, s1 := DeliverNext(r6, Update(2, two));
    var r8, s2 := DeliverNext(r7, Update(1, one));
    assert s2.since == swapped && Running(After(r8));
  }

  lemma EmittedTwice(client: Client, one: seq<Frame>, two: seq<Frame>)
    ensures Next(Next(World([], {}, [], 0, client), Emit(one)), Emit(two))
         == World([Update(1, one), Update(2, two)], {1, 2}, [], 0, client)
  {
  }

  lemma SwapPublished(hello: seq<Frame>, one: seq<Frame>, two: seq<Frame>) returns (run: seq<Action>)
    ensures Possible(run)
    ensures After(run) == World([Update(1, one), Update(2, two)], {}, [Update(2, two), Update(1, one)], 0,
                                Serving(Opening(Snapshot(0, hello))))
  {
    run := Begun(hello);
    var client := Serving(Opening(Snapshot(0, hello)));
    EmittedTwice(client, one, two);
    assert Enabled(World([], {}, [], 0, client), Emit(one));
    assert Enabled(Next(World([], {}, [], 0, client), Emit(one)), Emit(two));
    hide Possible, After, Next, Enabled, Opening;
    run := Step(run, Emit(one));
    run := Step(run, Emit(two));
    run := Step(run, Publish(2));
    run := Step(run, Publish(1));
  }

  lemma Begun(hello: seq<Frame>) returns (run: seq<Action>)
    ensures Possible(run) && After(run) == World([], {}, [], 0, Serving(Opening(Snapshot(0, hello))))
  {
    run := Step([], Subscribe);
    run := Step(run, Begin(hello, |hello|));
  }

  /** A running client with a snapshot below the next update is delivered it. */
  lemma DeliverNext(run: seq<Action>, u: Update) returns (longer: seq<Action>, s: Session)
    requires Possible(run) && Running(After(run)) && After(run).pos < |After(run).channel|
    requires After(run).channel[After(run).pos] == u && u.sequence > After(run).client.session.lastSequence
    ensures Possible(longer) && After(longer) == After(run).(pos := After(run).pos + 1, client := Serving(s))
    ensures s == After(run).client.session.(frames := After(run).client.session.frames + u.messages,
                                            since := After(run).client.session.since + [u])
  {
    longer := Step(run, Poll(|u.messages|));
    s := React(After(run).client.session, Live(u), |u.messages|);
  }

  lemma Step(run: seq<Action>, a: Action) returns (longer: seq<Action>)
    requires Possible(run) && Enabled(After(run), a)
    ensures Possible(longer) && After(longer) == Next(After(run), a)
  {
    longer := run + [a];
    assert longer[..|run|] == run;
  }
}
