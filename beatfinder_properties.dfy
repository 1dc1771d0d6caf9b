/**
 * What the beat router promises: per callback (counter, rejection, routing
 * by sync and divider), over runs of callbacks (the forwarding cadence and
 * the level queue), and together with the OSC client's range gate.
 */
module BeatFinderProperties {
  import opened BeatFinder
  import OscClient

  /** The state and the collaborator calls after a run of GUI callbacks with one configuration. */
  datatype Trace = Trace(state: RouterState, events: seq<Event>)

  /**
   * Consecutive callbacks. A callback that raises or returns `Complete` ends
   * the stream, so later buffers never arrive.
   */
  function Run(st: RouterState, bufs: seq<Buffer>, snap: Snapshot): (t: Trace)
    requires |st.levels| <= LevelCapacity
    ensures |t.state.levels| <= LevelCapacity
    decreases |bufs|
  {
    if bufs == [] then Trace(st, [])
    else
      var r := Step(st, bufs[0], snap);
      if r.outcome != Continue then Trace(r.state, r.events)
      else
        var rest := Run(r.state, bufs[1..], snap);
        Trace(rest.state, r.events + rest.events)
  }

  /** The number of OSC sends among some collaborator calls. */
  function CountOsc(es: seq<Event>): nat {
    if es == [] then 0 else (if es[0].Osc? then 1 else 0) + CountOsc(es[1..])
  }

  /** Every buffer of the run carries an onset with a tempo inside (20, 200). */
  predicate AllAccepted(bufs: seq<Buffer>) {
    forall i :: 0 <= i < |bufs| ==> bufs[i].isOnset && BpmLow < bufs[i].roundedBpm < BpmHigh
  }

  /** Forwards per four onsets, read off the check values 2, 3, 4, 5 that the counter cycles through. */
  function ForwardRate(d: int): nat {
    if d == 1 then 4 else if d == 2 then 2 else if 3 <= d <= 5 then 1 else 0
  }

  /**
   * A reference count: how many of the next `n` onsets, from stored counter
   * `c`, pass the divider check `(counter + 1) % d == 0` on the incremented
   * counter.
   */
  function Hits(c: int, n: nat, d: int): nat
    requires 0 <= c < BarLength && d != 0
  {
    Tally(c, n, PassTable(d))
  }

  /**
   * The divider check as a table over the stored counter: entry `c` is 1
   * when an onset arriving with stored counter `c` is forwarded, that is
   * when its check value `c + 2` is a multiple of `d`.
   */
  function PassTable(d: int): (t: seq<nat>)
    requires d != 0
    ensures |t| == BarLength
  {
    [Passes(2, d), Passes(3, d), Passes(4, d), Passes(5, d)]
  }

  /** The sum of the table entries met by `n` onsets from stored counter `c`, the counter wrapping at 4. */
  function Tally(c: int, n: nat, table: seq<nat>): nat
    requires 0 <= c < BarLength && |table| == BarLength
    decreases n
  {
    if n == 0 then 0 else table[c] + Tally((c + 1) % BarLength, n - 1, table)
  }

  /** 1 when the divider check passes on the check value `k`, 0 otherwise. */
  function Passes(k: int, d: int): nat
    requires d != 0
  {
    if k % d == 0 then 1 else 0
  }

  /** The newest `n` entries of `s`, oldest first. */
  function Latest(s: seq<nat>, n: nat): seq<nat> {
    if |s| <= n then s else s[|s| - n..]
  }

  /** Appending the levels `xs` one by one to the bounded queue. */
  function PushAll(q: seq<nat>, xs: seq<nat>): seq<nat>
    requires |q| <= LevelCapacity
    decreases |xs|
  {
    if xs == [] then q else PushAll(PushLevel(q, xs[0]), xs[1..])
  }

  function LevelsOf(bufs: seq<Buffer>): seq<nat> {
    if bufs == [] then [] else [bufs[0].level] + LevelsOf(bufs[1..])
  }

  // ---------------------------------------------------------------- one callback

  /**
   * Every onset advances the counter, accepted or not; it wraps to 0 exactly
   * when it reaches 4; other buffers leave it alone. Only a raising callback
   * leaves the unwrapped value behind.
   */
  lemma CounterCycles(st: RouterState, buf: Buffer, snap: Snapshot)
    requires 0 <= st.beatCounter < BarLength && |st.levels| <= LevelCapacity
    ensures var r := Step(st, buf, snap);
      r.outcome != Raised ==>
        r.state.beatCounter == if buf.isOnset then (st.beatCounter + 1) % BarLength else st.beatCounter
    ensures var r := Step(st, buf, snap);
      r.outcome == Raised ==> r.state.beatCounter == st.beatCounter + 1
  {
  }

  /** Every onset overwrites the stored tempo, even one that is then rejected. */
  lemma TempoOverwrittenOnEveryOnset(st: RouterState, buf: Buffer, snap: Snapshot)
    requires |st.levels| <= LevelCapacity
    ensures Step(st, buf, snap).state.bpm == if buf.isOnset then buf.roundedBpm else st.bpm
  {
  }

  /**
   * A buffer without an onset, or an onset with tempo at or beyond 20 or 200,
   * or one arriving while the parent is not running, calls no collaborator.
   */
  lemma RejectedOnsetIsSilent(st: RouterState, buf: Buffer, snap: Snapshot)
    requires |st.levels| <= LevelCapacity
    requires !buf.isOnset || buf.roundedBpm <= BpmLow || buf.roundedBpm >= BpmHigh || !snap.running
    ensures Step(st, buf, snap).events == []
    ensures Step(st, buf, snap).outcome == Status(snap.running)
  {
  }

  /** A callback that returns tells the stream to continue exactly when the parent is running. */
  lemma ContinuesIffRunning(st: RouterState, buf: Buffer, snap: Snapshot)
    requires |st.levels| <= LevelCapacity
    ensures var r := Step(st, buf, snap);
      r.outcome != Raised ==> (r.outcome == Continue <==> snap.running)
  {
  }

  /** Without sync an accepted onset only updates the live display, without blinking, whatever the divider. */
  lemma UnsyncedOnsetIsLiveOnly(st: RouterState, buf: Buffer, snap: Snapshot)
    requires |st.levels| <= LevelCapacity
    requires buf.isOnset && Accepted(buf.roundedBpm, snap.running) && !snap.sync
    ensures Step(st, buf, snap).events == [Live(buf.roundedBpm, false)]
    ensures Step(st, buf, snap).outcome == Continue
  {
  }

  /**
   * With sync and divider 1 an accepted onset makes, in order: the parent's
   * beat notification, a blinking live update, one OSC send of the undivided
   * tempo (which always passes the Resolume gate), the "send" display, the LED.
   */
  lemma DividerOneForwardsEveryOnset(st: RouterState, buf: Buffer, snap: Snapshot)
    requires |st.levels| <= LevelCapacity
    requires buf.isOnset && Accepted(buf.roundedBpm, snap.running) && snap.sync && snap.beatDivider == 1
    ensures var b := buf.roundedBpm;
      Step(st, buf, snap).events ==
        [Detected(b), Live(b, true), Osc(snap.bpmAddress, b, true), SendDisplay(b), NextLed]
    ensures OscClient.Outgoing(snap.bpmAddress, buf.roundedBpm, true) ==
      OscClient.Some(OscClient.Message(snap.bpmAddress, OscClient.FloatArg(OscClient.ResolumeValue(buf.roundedBpm))))
  {
  }

  /**
   * With sync and divider d > 1 an accepted onset always notifies the parent
   * and blinks the live display; it forwards `bpm // d` to OSC, the "send"
   * display and the LED exactly when `(counter + 1) % d == 0` on the
   * incremented, not yet wrapped counter.
   */
  lemma DividerGate(st: RouterState, buf: Buffer, snap: Snapshot)
    requires |st.levels| <= LevelCapacity
    requires buf.isOnset && Accepted(buf.roundedBpm, snap.running) && snap.sync && snap.beatDivider > 1
    ensures var b, d := buf.roundedBpm, snap.beatDivider;
      Step(st, buf, snap).events ==
        [Detected(b), Live(b, true)] +
        (if (st.beatCounter + 1 + 1) % d == 0
         then [Osc(snap.bpmAddress, b / d, true), SendDisplay(b / d), NextLed]
         else [])
    ensures var b, d := buf.roundedBpm, snap.beatDivider;
      d * (b / d) <= b < d * (b / d) + d
  {
  }

  /** A divider of 0 raises after the parent was notified and the live display updated. */
  lemma ZeroDividerRaises(st: RouterState, buf: Buffer, snap: Snapshot)
    requires |st.levels| <= LevelCapacity
    requires buf.isOnset && Accepted(buf.roundedBpm, snap.running) && snap.sync && snap.beatDivider == 0
    ensures Step(st, buf, snap).outcome == Raised
    ensures Step(st, buf, snap).events == [Detected(buf.roundedBpm), Live(buf.roundedBpm, true)]
  {
  }

  /** An accepted synced onset with a positive divider: how the counter moves and whether it forwards. */
  lemma SyncedOnset(st: RouterState, buf: Buffer, snap: Snapshot)
    requires 0 <= st.beatCounter < BarLength && |st.levels| <= LevelCapacity
    requires buf.isOnset && Accepted(buf.roundedBpm, snap.running) && snap.sync && snap.beatDivider >= 1
    ensures Step(st, buf, snap).outcome == Continue
    ensures Step(st, buf, snap).state.beatCounter == (st.beatCounter + 1) % BarLength
  {
  }

  /** An accepted synced onset sends one OSC message when its check value `counter + 1` passes, none otherwise. */
  lemma SyncedOnsetSends(st: RouterState, buf: Buffer, snap: Snapshot)
    requires |st.levels| <= LevelCapacity
    requires buf.isOnset && Accepted(buf.roundedBpm, snap.running) && snap.sync && snap.beatDivider >= 1
    ensures CountOsc(Step(st, buf, snap).events) == Passes(st.beatCounter + 2, snap.beatDivider)
  {
    AcceptedStep(st, buf, snap);
    DispatchForwardCount(st.beatCounter + 1, buf.roundedBpm, snap);
  }

  /** An accepted onset: the collaborator calls are those of `Dispatch` on the incremented counter. */
  lemma AcceptedStep(st: RouterState, buf: Buffer, snap: Snapshot)
    requires |st.levels| <= LevelCapacity
    requires buf.isOnset && Accepted(buf.roundedBpm, snap.running)
    ensures Step(st, buf, snap).events == Dispatch(st.beatCounter + 1, buf.roundedBpm, snap).events
    ensures !(snap.sync && snap.beatDivider == 0) ==>
      Step(st, buf, snap).state.beatCounter == Wrap(st.beatCounter + 1) && Step(st, buf, snap).outcome == Continue
  {
    var dispatched := Dispatch(st.beatCounter + 1, buf.roundedBpm, snap);
    var levels := PushLevel(st.levels, buf.level);
    if dispatched.raised {
      assert Step(st, buf, snap) == StepResult(RouterState(st.beatCounter + 1, buf.roundedBpm, levels), dispatched.events, Raised);
    } else {
      assert Step(st, buf, snap) == StepResult(RouterState(Wrap(st.beatCounter + 1), buf.roundedBpm, levels), dispatched.events, Continue);
    }
  }

  /** With sync and a positive divider, routing an onset sends one OSC message if the check passes, else none. */
  lemma DispatchForwardCount(counter: int, bpm: int, snap: Snapshot)
    requires snap.sync && snap.beatDivider >= 1
    ensures CountOsc(Dispatch(counter, bpm, snap).events) == Passes(counter + 1, snap.beatDivider)
  {
    var d := snap.beatDivider;
    var events := Dispatch(counter, bpm, snap).events;
    var head := [Detected(bpm), Live(bpm, true)];
    CountOscHead(bpm, 0, snap.bpmAddress);
    if d == 1 {
      assert events == head + Forward(bpm, snap.bpmAddress);
      CountOscHead(bpm, bpm, snap.bpmAddress);
    } else if (counter + 1) % d == 0 {
      assert events == head + Forward(FloorDiv(bpm, d), snap.bpmAddress);
      CountOscHead(bpm, FloorDiv(bpm, d), snap.bpmAddress);
    } else {
      assert events == head;
    }
  }

  lemma CountOscHead(b: int, v: int, address: string)
    ensures CountOsc([Detected(b), Live(b, true)]) == 0
    ensures CountOsc([Detected(b), Live(b, true)] + Forward(v, address)) == 1
  {
    var head := [Detected(b), Live(b, true)];
    assert head == [Detected(b)] + [Live(b, true)];
    CountOscOne(Detected(b));
    CountOscOne(Live(b, true));
    CountOscAppend([Detected(b)], [Live(b, true)]);
    var fwd := Forward(v, address);
    assert fwd == [Osc(address, v, true)] + ([SendDisplay(v)] + [NextLed]);
    CountOscOne(Osc(address, v, true));
    CountOscOne(SendDisplay(v));
    CountOscOne(NextLed);
    CountOscAppend([SendDisplay(v)], [NextLed]);
    CountOscAppend([Osc(address, v, true)], [SendDisplay(v)] + [NextLed]);
    CountOscAppend(head, fwd);
  }

  lemma CountOscOne(e: Event)
    ensures CountOsc([e]) == if e.Osc? then 1 else 0
  {
    assert [e][1..] == [];
  }

  // ---------------------------------------------------------------- runs of callbacks

  lemma {:induction false} CountOscAppend(a: seq<Event>, b: seq<Event>)
    ensures CountOsc(a + b) == CountOsc(a) + CountOsc(b)
  {
    if a == [] {
      assert a + b == b;
    } else {
      assert (a + b)[0] == a[0] && (a + b)[1..] == a[1..] + b;
      CountOscAppend(a[1..], b);
    }
  }

  /** Over a run of accepted synced onsets the OSC sends are counted by `Hits`, and the counter advances modulo 4. */
  lemma {:induction false} RunForwards(st: RouterState, bufs: seq<Buffer>, snap: Snapshot)
    requires 0 <= st.beatCounter < BarLength && |st.levels| <= LevelCapacity
    requires snap.running && snap.sync && snap.beatDivider >= 1 && AllAccepted(bufs)
    ensures CountOsc(Run(st, bufs, snap).events) == Hits(st.beatCounter, |bufs|, snap.beatDivider)
    decreases |bufs|
  {
    if bufs != [] {
      var d := snap.beatDivider;
      var r := Step(st, bufs[0], snap);
      var next := (st.beatCounter + 1) % BarLength;
      assert r.state.beatCounter == next && r.outcome == Continue && |r.state.levels| <= LevelCapacity by {
        SyncedOnset(st, bufs[0], snap);
      }
      var tail := Run(r.state, bufs[1..], snap);
      assert Run(st, bufs, snap).events == r.events + tail.events by {
        RunUnfold(st, bufs, snap);
      }
      assert CountOsc(r.events) == Passes(st.beatCounter + 2, d) by {
        SyncedOnsetSends(st, bufs[0], snap);
      }
      assert CountOsc(tail.events) == Hits(next, |bufs| - 1, d) by {
        AllAcceptedTail(bufs);
        RunForwards(r.state, bufs[1..], snap);
        assert |bufs[1..]| == |bufs| - 1;
      }
      calc {
        CountOsc(Run(st, bufs, snap).events);
        CountOsc(r.events + tail.events);
        { CountOscAppend(r.events, tail.events); }
        Passes(st.beatCounter + 2, d) + Hits(next, |bufs| - 1, d);
        { HitsUnfold(st.beatCounter, |bufs|, d); }
        Hits(st.beatCounter, |bufs|, d);
      }
    }
  }

  lemma {:induction false} RunCounter(st: RouterState, bufs: seq<Buffer>, snap: Snapshot, target: int)
    requires 0 <= st.beatCounter < BarLength && |st.levels| <= LevelCapacity
    requires snap.running && snap.sync && snap.beatDivider >= 1 && AllAccepted(bufs)
    requires (st.beatCounter + |bufs|) % BarLength == target
    ensures Run(st, bufs, snap).state.beatCounter == target
    decreases |bufs|
  {
    if bufs != [] {
      var r := Step(st, bufs[0], snap);
      SyncedOnset(st, bufs[0], snap);
      AllAcceptedTail(bufs);
      ModStep(st.beatCounter, |bufs|);
      RunCounter(r.state, bufs[1..], snap, target);
      RunUnfold(st, bufs, snap);
    }
  }

  lemma HitsUnfold(c: int, n: nat, d: int)
    requires 0 <= c < BarLength && n >= 1 && d != 0
    ensures Hits(c, n, d) == Passes(c + 2, d) + Hits((c + 1) % BarLength, n - 1, d)
  {
    assert PassTable(d)[c] == Passes(c + 2, d);
  }

  lemma AllAcceptedTail(bufs: seq<Buffer>)
    requires bufs != [] && AllAccepted(bufs)
    ensures AllAccepted(bufs[1..])
  {
    forall i | 0 <= i < |bufs| - 1 ensures bufs[1..][i] == bufs[i + 1] { }
  }

  lemma ModStep(c: int, n: int)
    requires 0 <= c < BarLength && n >= 1
    ensures ((c + 1) % BarLength + (n - 1)) % BarLength == (c + n) % BarLength
  {
  }

  /** A run whose first callback continues the stream is that callback followed by the rest of the run. */
  lemma RunUnfold(st: RouterState, bufs: seq<Buffer>, snap: Snapshot)
    requires |st.levels| <= LevelCapacity && bufs != []
    requires Step(st, bufs[0], snap).outcome == Continue
    ensures var r := Step(st, bufs[0], snap);
      Run(st, bufs, snap) == Trace(Run(r.state, bufs[1..], snap).state, r.events + Run(r.state, bufs[1..], snap).events)
  {
  }

  lemma {:induction false} TallySplit(c: int, m: nat, n: nat, t: seq<nat>)
    requires 0 <= c < BarLength && |t| == BarLength
    ensures Tally(c, m + n, t) == Tally(c, m, t) + Tally((c + m) % BarLength, n, t)
    decreases m
  {
    if m > 0 {
      var c' := (c + 1) % BarLength;
      assert Tally(c, m + n, t) == t[c] + Tally(c', m - 1 + n, t);
      assert Tally(c', m - 1 + n, t) == Tally(c', m - 1, t) + Tally((c + m) % BarLength, n, t) by {
        TallySplit(c', m - 1, n, t);
        ModStep(c, m);
      }
    } else {
      assert (c + m) % BarLength == c;
    }
  }

  /** The check values 2, 3, 4, 5 of one bar pass the divider check `ForwardRate(d)` times. */
  lemma RateCountsChecks(d: int)
    requires d >= 1
    ensures Passes(2, d) + Passes(3, d) + Passes(4, d) + Passes(5, d) == ForwardRate(d)
  {
    if d >= 6 {
      assert 2 % d == 2 && 3 % d == 3 && 4 % d == 4 && 5 % d == 5;
    }
  }

  /** Four consecutive onsets meet every entry of the table once, wherever the counter stands. */
  lemma TallyBar(c: int, t: seq<nat>)
    requires 0 <= c < BarLength && |t| == BarLength
    ensures Tally(c, 4, t) == t[0] + t[1] + t[2] + t[3]
  {
    assert Tally(0, 1, t) == t[0] && Tally(1, 1, t) == t[1];
    assert Tally(2, 1, t) == t[2] && Tally(3, 1, t) == t[3];
    assert Tally(0, 2, t) == t[0] + t[1] && Tally(1, 2, t) == t[1] + t[2];
    assert Tally(2, 2, t) == t[2] + t[3] && Tally(3, 2, t) == t[3] + t[0];
    assert Tally(0, 3, t) == t[0] + t[1] + t[2] && Tally(1, 3, t) == t[1] + t[2] + t[3];
    assert Tally(2, 3, t) == t[2] + t[3] + t[0] && Tally(3, 3, t) == t[3] + t[0] + t[1];
  }

  lemma {:induction false} TallyOverBars(c: int, k: nat, t: seq<nat>)
    requires 0 <= c < BarLength && |t| == BarLength
    ensures Tally(c, 4 * k, t) == k * (t[0] + t[1] + t[2] + t[3])
  {
    if k > 0 {
      var rest := 4 * (k - 1);
      assert Tally(c, 4 * k, t) == Tally(c, 4, t) + Tally(c, rest, t) by {
        assert 4 * k == 4 + rest;
        assert (c + 4) % BarLength == c;
        TallySplit(c, 4, rest, t);
      }
      TallyBar(c, t);
      TallyOverBars(c, k - 1, t);
      var sum := t[0] + t[1] + t[2] + t[3];
      assert k * sum == sum + (k - 1) * sum;
    }
  }

  /** Whole bars of onsets forward `ForwardRate(d)` times per bar. */
  lemma HitsOverBars(c: int, k: nat, d: int)
    requires 0 <= c < BarLength && d >= 1
    ensures Hits(c, 4 * k, d) == k * ForwardRate(d)
  {
    TallyOverBars(c, k, PassTable(d));
    RateCountsChecks(d);
  }

  /**
   * The forwarding cadence. Over whole bars of four accepted synced onsets,
   * divider 1 forwards all four, divider 2 two, dividers 3, 4 and 5 one,
   * and dividers of 6 or more none: the counter wraps at 4, so a divider
   * that does not divide 4 does not forward once every d onsets.
   */
  lemma CadenceOverBars(st: RouterState, bufs: seq<Buffer>, snap: Snapshot)
    requires 0 <= st.beatCounter < BarLength && |st.levels| <= LevelCapacity
    requires snap.running && snap.sync && snap.beatDivider >= 1 && AllAccepted(bufs)
    requires |bufs| % 4 == 0
    ensures CountOsc(Run(st, bufs, snap).events) == |bufs| / 4 * ForwardRate(snap.beatDivider)
  {
    var k := |bufs| / 4;
    assert |bufs| == 4 * k;
    RunForwards(st, bufs, snap);
    HitsOverBars(st.beatCounter, k, snap.beatDivider);
  }

  /** After whole bars of accepted synced onsets the counter is back where it started. */
  lemma BarsKeepCounter(st: RouterState, bufs: seq<Buffer>, snap: Snapshot)
    requires 0 <= st.beatCounter < BarLength && |st.levels| <= LevelCapacity
    requires snap.running && snap.sync && snap.beatDivider >= 1 && AllAccepted(bufs)
    requires |bufs| % 4 == 0
    ensures Run(st, bufs, snap).state.beatCounter == st.beatCounter
  {
    BarsReturnCounter(st.beatCounter, |bufs|);
    RunCounter(st, bufs, snap, st.beatCounter);
  }

  lemma BarsReturnCounter(c: int, n: nat)
    requires 0 <= c < BarLength && n % BarLength == 0
    ensures (c + n) % BarLength == c
  {
  }

  /** Twelve accepted onsets with divider 3 forward three times, not four. */
  lemma DividerThreeIsNotEveryThirdOnset(st: RouterState, bufs: seq<Buffer>, snap: Snapshot)
    requires 0 <= st.beatCounter < BarLength && |st.levels| <= LevelCapacity
    requires snap.running && snap.sync && snap.beatDivider == 3 && AllAccepted(bufs) && |bufs| == 12
    ensures CountOsc(Run(st, bufs, snap).events) == 3 != |bufs| / 3
  {
    CadenceOverBars(st, bufs, snap);
  }

  lemma {:induction false} TallyOfZeros(c: int, n: nat)
    requires 0 <= c < BarLength
    ensures Tally(c, n, [0, 0, 0, 0]) == 0
    decreases n
  {
    if n > 0 {
      TallyOfZeros((c + 1) % BarLength, n - 1);
    }
  }

  lemma HitsLargeDivider(c: int, n: nat, d: int)
    requires 0 <= c < BarLength && d >= 6
    ensures Hits(c, n, d) == 0
  {
    assert PassTable(d) == [0, 0, 0, 0] by {
      assert 2 % d == 2 && 3 % d == 3 && 4 % d == 4 && 5 % d == 5;
    }
    TallyOfZeros(c, n);
  }

  /** With a divider of 6 or more no accepted onset is ever forwarded over OSC. */
  lemma LargeDividerNeverForwards(st: RouterState, bufs: seq<Buffer>, snap: Snapshot)
    requires 0 <= st.beatCounter < BarLength && |st.levels| <= LevelCapacity
    requires snap.running && snap.sync && snap.beatDivider >= 6 && AllAccepted(bufs)
    ensures CountOsc(Run(st, bufs, snap).events) == 0
  {
    RunForwards(st, bufs, snap);
    HitsLargeDivider(st.beatCounter, |bufs|, snap.beatDivider);
  }

  // ---------------------------------------------------------------- the level queue

  lemma LatestOfSuffix(u: seq<nat>, j: nat, n: nat)
    requires j <= |u| && |u| - j >= (if |u| < n then |u| else n)
    ensures Latest(u[j..], n) == Latest(u, n)
  {
    if |u| > n {
      assert u[j..][|u| - j - n..] == u[|u| - n..];
    }
  }

  /** However many levels are appended, the queue holds the newest 20 of everything, oldest first. */
  lemma {:induction false} LevelQueueKeepsNewest(q: seq<nat>, xs: seq<nat>)
    requires |q| <= LevelCapacity
    ensures PushAll(q, xs) == Latest(q + xs, LevelCapacity)
    decreases |xs|
  {
    if xs == [] {
      assert q + xs == q;
    } else {
      var p := PushLevel(q, xs[0]);
      var u := q + xs;
      var j := |q| + 1 - |p|;
      assert PushAll(q, xs) == Latest(p + xs[1..], LevelCapacity) by {
        LevelQueueKeepsNewest(p, xs[1..]);
      }
      assert p + xs[1..] == u[j..] by {
        PushThenRest(q, xs);
      }
      LatestOfSuffix(u, j, LevelCapacity);
    }
  }

  /** One append to the bounded queue keeps the newest 20 of the old entries and the new one. */
  lemma PushLevelKeepsNewest(q: seq<nat>, x: nat)
    requires |q| <= LevelCapacity
    ensures PushLevel(q, x) == Latest(q + [x], LevelCapacity)
  {
    if |q| == LevelCapacity {
      assert (q + [x])[1..] == q[1..] + [x];
    }
  }

  /** The queue after one push, followed by the remaining levels, is a suffix of everything appended. */
  lemma PushThenRest(q: seq<nat>, xs: seq<nat>)
    requires |q| <= LevelCapacity && xs != []
    ensures PushLevel(q, xs[0]) + xs[1..] == (q + xs)[|q| + 1 - |PushLevel(q, xs[0])|..]
  {
    var w := q + [xs[0]];
    var k := |q| + 1 - |PushLevel(q, xs[0])|;
    assert w + xs[1..] == q + xs;
    assert w[k..] + xs[1..] == (w + xs[1..])[k..];
  }

  /** Twenty-five levels appended to an empty queue leave the last twenty. */
  lemma TwentyFiveLevels(xs: seq<nat>)
    requires |xs| == 25
    ensures PushAll([], xs) == xs[5..]
  {
    assert PushAll([], xs) == Latest([] + xs, LevelCapacity) by {
      LevelQueueKeepsNewest([], xs);
    }
    assert [] + xs == xs;
  }

  /**
   * Every callback appends exactly one level, onset or not: after a run
   * while the parent is running and that does not raise, the queue holds the
   * newest 20 levels of the run.
   */
  lemma {:induction false} RunKeepsNewestLevels(st: RouterState, bufs: seq<Buffer>, snap: Snapshot)
    requires |st.levels| <= LevelCapacity
    requires snap.running && (!snap.sync || snap.beatDivider != 0)
    ensures Run(st, bufs, snap).state.levels == PushAll(st.levels, LevelsOf(bufs))
    ensures Run(st, bufs, snap).state.levels == Latest(st.levels + LevelsOf(bufs), LevelCapacity)
    decreases |bufs|
  {
    LevelQueueKeepsNewest(st.levels, LevelsOf(bufs));
    if bufs != [] {
      var r := Step(st, bufs[0], snap);
      RunKeepsNewestLevels(r.state, bufs[1..], snap);
      var ls := LevelsOf(bufs);
      assert ls[0] == bufs[0].level && ls[1..] == LevelsOf(bufs[1..]);
    }
  }

  /**
   * A callback made while the parent is not running returns `Complete`, so
   * the stream ends after it: the run is that one callback, whatever follows.
   */
  lemma StoppedParentEndsRun(st: RouterState, bufs: seq<Buffer>, snap: Snapshot)
    requires |st.levels| <= LevelCapacity && bufs != [] && !snap.running
    ensures var r := Step(st, bufs[0], snap);
      Run(st, bufs, snap) == Trace(r.state, r.events)
  {
  }

  // ---------------------------------------------------------------- with the OSC client

  /**
   * Every OSC send the router makes asks for the Resolume mapping, and it
   * reaches the wire exactly when the value is above 20: the undivided and
   * divided tempos are all below 200, so the upper bound of the gate never
   * bites.
   */
  lemma RouterSendsPassGateIffAbove20(st: RouterState, buf: Buffer, snap: Snapshot)
    requires |st.levels| <= LevelCapacity
    ensures forall e | e in Step(st, buf, snap).events && e.Osc? ::
      e.mapToResolume && (OscClient.Outgoing(e.address, e.value, true).Some? <==> e.value > BpmLow)
  {
    var b, d := buf.roundedBpm, snap.beatDivider;
    if buf.isOnset && Accepted(b, snap.running) && snap.sync && d != 0 && d != 1 {
      FloorDivBelow(b, d);
    }
  }

  /** Dividing a positive tempo by a non-zero divider never increases it. */
  lemma FloorDivBelow(a: int, d: int)
    requires a > 0 && d != 0
    ensures FloorDiv(a, d) <= a
  {
    if d > 0 {
      var q, r := a / d, a % d;
      assert a == d * q + r && 0 <= r;
      MulAtLeast(d, q);
    } else {
      var q, r := (-a) / (-d), (-a) % (-d);
      assert -a == (-d) * q + r && 0 <= r < -d;
      MulAtLeast(-d, q);
    }
  }

  /** A positive factor does not shrink a non-negative number, and keeps a negative one negative. */
  lemma MulAtLeast(d: int, q: int)
    requires d >= 1
    ensures q >= 0 ==> d * q >= q
    ensures q < 0 ==> d * q <= q
  {
    var e := d - 1;
    assert d * q == q + e * q;
  }

  /**
   * A slow tempo divided below the gate still updates the "send" display but
   * produces no OSC message: 83 BPM with divider 4 on the third onset of a bar
   * (stored counter 2, check value 4).
   */
  lemma SlowDividedTempoShownButNotSent(levels: seq<nat>, address: string)
    requires |levels| <= LevelCapacity
    ensures var r := Step(RouterState(2, InitialBpm, levels), Buffer(true, 83, 0), Snapshot(true, true, 4, address));
      r.events == [Detected(83), Live(83, true), Osc(address, 20, true), SendDisplay(20), NextLed]
    ensures OscClient.Outgoing(address, 20, true) == OscClient.None
  {
  }

  /** `resync_bar` always puts the value 1, unmapped, on the wire. */
  lemma ResyncReachesWire(address: string)
    ensures OscClient.Outgoing(address, 1, false) == OscClient.Some(OscClient.Message(address, OscClient.IntArg(1)))
  {
  }

}
