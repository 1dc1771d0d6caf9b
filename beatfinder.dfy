/**
 * The per-buffer beat router of `BeatDetector` and the console spinner
 * `BeatPrinter`.
 *
 * The tempo analyser and the RMS computation are abstracted into a `Buffer`
 * (onset flag, already-rounded BPM, integer level); the parent window's
 * `running`, `sync` and `beat_divider` and its configured BPM address are one
 * `Snapshot` per callback. Calls on the parent window and on the OSC client
 * are recorded as `Event`s in a ghost log, in the order they are made.
 *
 * `Step` is the specification of one GUI callback; `BeatDetector.GuiCallback`
 * performs it step by step on the object's fields.
 */
module BeatFinder {

  /** What the analysis of one audio buffer hands to the router. */
  datatype Buffer = Buffer(isOnset: bool, roundedBpm: int, level: nat)

  /** The parent window's shared configuration as read during one callback. */
  datatype Snapshot = Snapshot(running: bool, sync: bool, beatDivider: int, bpmAddress: string)

  /** A call the router makes on its collaborators. */
  datatype Event =
    | Detected(bpm: int)                                      // parent.process_detected_beat
    | Live(bpm: int, blink: bool)                             // parent.update_bpm_display(send_to="live")
    | SendDisplay(bpm: int)                                   // parent.update_bpm_display(send_to="send")
    | Osc(address: string, value: int, mapToResolume: bool)   // client.send_osc
    | NextLed                                                 // parent.next_led

  /**
   * What the callback hands back to the audio stream: continue, complete, or
   * nothing at all because `%` by a zero divider raised ZeroDivisionError.
   */
  datatype Outcome = Continue | Complete | Raised

  /** The router's own fields: `beat_counter`, `bpm` and `level_queue`. */
  datatype RouterState = RouterState(beatCounter: int, bpm: int, levels: seq<nat>)

  datatype StepResult = StepResult(state: RouterState, events: seq<Event>, outcome: Outcome)

  /** The events of an accepted onset, and whether routing it raised. */
  datatype Dispatched = Dispatched(events: seq<Event>, raised: bool)

  const LevelCapacity: nat := 20
  const BpmLow: int := 20
  const BpmHigh: int := 200
  const BarLength: int := 4
  const InitialBpm: int := 128
  /** The two glyphs of the console spinner. */
  const Spinner: string := "▚▞"

  /** Python's `//`: division rounding towards minus infinity. */
  function FloorDiv(a: int, d: int): (r: int)
    requires d != 0
    ensures d > 0 ==> d * r <= a < d * r + d
    ensures d < 0 ==> d * r + d < a <= d * r
  {
    if d > 0 then a / d else (-a) / (-d)
  }

  /** An onset is acted upon only with a rounded tempo in (20, 200) while the parent is running. */
  predicate Accepted(bpm: int, running: bool) {
    BpmLow < bpm < BpmHigh && running
  }

  function Status(running: bool): Outcome {
    if running then Continue else Complete
  }

  /** The three outputs of a forwarded beat: OSC, the "send" display and the LED. */
  function Forward(value: int, address: string): seq<Event> {
    [Osc(address, value, true), SendDisplay(value), NextLed]
  }

  /**
   * Routing of an accepted onset whose post-increment counter is `counter`:
   * live display only without sync; with sync the parent is told of the beat,
   * the live display blinks, and the beat is forwarded always for divider 1,
   * otherwise when `(counter + 1) % divider == 0`, carrying `bpm // divider`.
   */
  function Dispatch(counter: int, bpm: int, snap: Snapshot): (r: Dispatched)
    ensures r.raised <==> snap.sync && snap.beatDivider == 0
    ensures !snap.sync ==> r.events == [Live(bpm, false)]
    ensures snap.sync ==> |r.events| >= 2 && r.events[..2] == [Detected(bpm), Live(bpm, true)]
  {
    if !snap.sync then
      Dispatched([Live(bpm, false)], false)
    else
      var head := [Detected(bpm), Live(bpm, true)];
      var d := snap.beatDivider;
      if d == 1 then Dispatched(head + Forward(bpm, snap.bpmAddress), false)
      else if d == 0 then Dispatched(head, true)
      // Python's and Dafny's `%` disagree for negative divisors, but agree on when the remainder is 0
      else if (counter + 1) % d == 0 then Dispatched(head + Forward(FloorDiv(bpm, d), snap.bpmAddress), false)
      else Dispatched(head, false)
  }

  /** Appending to `deque(maxlen=20)`: the newest entries of the queue followed by `x`. */
  function PushLevel(q: seq<nat>, x: nat): (r: seq<nat>)
    requires |q| <= LevelCapacity
    ensures |r| == if |q| < LevelCapacity then |q| + 1 else LevelCapacity
  {
    if |q| < LevelCapacity then q + [x] else q[1..] + [x]
  }

  /** The counter after an onset: reset to 0 when the increment reaches 4. */
  function Wrap(counter: int): (r: int)
    ensures 1 <= counter <= BarLength ==> r == counter % BarLength
  {
    if counter == BarLength then 0 else counter
  }

  /** The specification of one GUI callback (`_GUI_callback`). */
  function Step(st: RouterState, buf: Buffer, snap: Snapshot): (r: StepResult)
    requires |st.levels| <= LevelCapacity
    ensures r.state.levels == PushLevel(st.levels, buf.level)
    ensures 0 <= st.beatCounter < BarLength && r.outcome != Raised ==> 0 <= r.state.beatCounter < BarLength
    ensures r.outcome == Raised <==>
      buf.isOnset && Accepted(buf.roundedBpm, snap.running) && snap.sync && snap.beatDivider == 0
  {
    var levels := PushLevel(st.levels, buf.level);
    if !buf.isOnset then
      StepResult(st.(levels := levels), [], Status(snap.running))
    else
      var counter := st.beatCounter + 1;
      var bpm := buf.roundedBpm;
      if Accepted(bpm, snap.running) then
        var dispatched := Dispatch(counter, bpm, snap);
        if dispatched.raised then
          StepResult(RouterState(counter, bpm, levels), dispatched.events, Raised)
        else
          StepResult(RouterState(Wrap(counter), bpm, levels), dispatched.events, Status(snap.running))
      else
        StepResult(RouterState(Wrap(counter), bpm, levels), [], Status(snap.running))
  }

  /** One line printed by the console spinner. */
  datatype SpinnerLine = SpinnerLine(glyph: char, bpm: real)

  /** The console spinner (`BeatPrinter`): two glyphs shown in turn. */
  class BeatPrinter {
    var state: int
    ghost var lines: seq<SpinnerLine>

    ghost predicate Valid()
      reads this
    {
      0 <= state < |Spinner|
    }

    constructor ()
      ensures Valid() && state == 0 && lines == []
    {
      state := 0;
      lines := [];
    }

    /** `print_bpm`: prints the current glyph with the tempo, then flips to the other glyph. */
    method PrintBpm(bpm: real)
      requires Valid()
      modifies this
      ensures Valid()
      ensures state == 1 - old(state)
      ensures lines == old(lines) + [SpinnerLine(Spinner[old(state)], bpm)]
    {
      lines := lines + [SpinnerLine(Spinner[state], bpm)];
      state := (state + 1) % |Spinner|;
    }
  }

  class BeatDetector {
    var beatCounter: int
    var bpm: int
    var levels: seq<nat>
    /** The console spinner; it exists only when there is no parent window. */
    const spinner: BeatPrinter?
    ghost var events: seq<Event>

    /** Between callbacks the counter is in 0..3 and the level queue holds at most 20 entries. */
    ghost predicate Valid()
      reads this
    {
      0 <= beatCounter < BarLength && |levels| <= LevelCapacity
    }

    function State(): RouterState
      reads this
    {
      RouterState(beatCounter, bpm, levels)
    }

    constructor (withParent: bool)
      ensures Valid()
      ensures beatCounter == 0 && bpm == InitialBpm && levels == [] && events == []
      ensures withParent ==> spinner == null
      ensures !withParent ==> spinner != null && fresh(spinner) && spinner.Valid() && spinner.state == 0
    {
      beatCounter := 0;
      bpm := InitialBpm;
      levels := [];
      events := [];
      if withParent {
        spinner := null;
      } else {
        spinner := new BeatPrinter();
      }
    }

    /** `_GUI_callback`, performed on the fields; its effect is exactly `Step`. */
    method GuiCallback(buf: Buffer, snap: Snapshot) returns (outcome: Outcome)
      requires Valid()
      modifies this`beatCounter, this`bpm, this`levels, this`events
      ensures outcome != Raised ==> Valid()
      ensures State() == Step(old(State()), buf, snap).state
      ensures events == old(events) + Step(old(State()), buf, snap).events
      ensures outcome == Step(old(State()), buf, snap).outcome
    {
      ghost var before := State();
      levels := levels + [buf.level];
      if |levels| > LevelCapacity {
        levels := levels[1..];
      }
      assert levels == PushLevel(before.levels, buf.level);
      if buf.isOnset {
        beatCounter := beatCounter + 1;
        bpm := buf.roundedBpm;
        if bpm > BpmLow && bpm < BpmHigh && snap.running {
          var raised := RouteOnset(snap);
          if raised {
            // `% 0` raised: the reset below and the return value are never reached
            outcome := Raised;
            return;
          }
        }
        if beatCounter == BarLength {
          beatCounter := 0;
        }
      }
      outcome := if snap.running then Continue else Complete;
    }

    /**
     * The routing part of `_GUI_callback` for an accepted onset, after the
     * counter was incremented and the tempo stored: the calls on the parent
     * and the OSC client, and whether `beat_counter % beat_divider` raised.
     */
    method RouteOnset(snap: Snapshot) returns (raised: bool)
      modifies this`events
      ensures events == old(events) + Dispatch(beatCounter, bpm, snap).events
      ensures raised == Dispatch(beatCounter, bpm, snap).raised
    {
      raised := false;
      if snap.sync {
        events := events + [Detected(bpm), Live(bpm, true)];
        var divider := snap.beatDivider;
        if divider == 1 {
          events := events + [Osc(snap.bpmAddress, bpm, true), SendDisplay(bpm), NextLed];
        } else if divider == 0 {
          raised := true;
        } else if (beatCounter + 1) % divider == 0 {
          var divided := FloorDiv(bpm, divider);
          events := events + [Osc(snap.bpmAddress, divided, true), SendDisplay(divided), NextLed];
        }
      } else {
        events := events + [Live(bpm, false)];
      }
    }

    /** `_STANDALONE_callback`: an onset prints the unrounded tempo through the spinner. */
    method StandaloneCallback(isOnset: bool, tempo: real) returns (outcome: Outcome)
      requires spinner != null && spinner.Valid()
      modifies spinner
      ensures outcome == Continue
      ensures spinner.Valid()
      ensures isOnset ==> spinner.state == 1 - old(spinner.state)
      ensures isOnset ==> spinner.lines == old(spinner.lines) + [SpinnerLine(Spinner[old(spinner.state)], tempo)]
      ensures !isOnset ==> spinner.state == old(spinner.state) && spinner.lines == old(spinner.lines)
    {
      if isOnset {
        spinner.PrintBpm(tempo);
      }
      outcome := Continue;
    }

    /** `resync_bar`: one unmapped OSC message with value 1 to the resync address. */
    method ResyncBar(resyncAddress: string)
      modifies this`events
      ensures events == old(events) + [Osc(resyncAddress, 1, false)]
    {
      events := events + [Osc(resyncAddress, 1, false)];
    }
  }
}
