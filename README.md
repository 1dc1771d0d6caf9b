# BPM-to-OSC beat router, modelled in Dafny

BPM-to-OSC listens to live audio, detects beat onsets and the tempo, and
forwards the tempo over OSC (UDP) to Resolume. This project models the two
core files of that pipeline:

- `beatfinder.py`: the per-buffer audio callback of `BeatDetector`. It runs
  the level queue, the BPM sanity filter (20 < bpm < 200 while the parent
  window is running), the four-beat counter, and routing by sync mode and
  beat divider. The file also holds the standalone console callback with its
  `BeatPrinter` spinner, and `resync_bar`.
- `osc_client.py`: `OSCclient`. It owns an endpoint whose UDP transport is
  rebuilt when the host or port changes. Its `send_osc` applies the Resolume
  range gate 20 < v < 500 and the mapping `(v - 20) / 480`, sends unmapped
  values verbatim, and swallows every transport error.

Layout:

- `osc_client.dfy` (module `OscClient`) holds:
  - the message and gate functions;
  - the `OSCClient` class, with a ghost log of what reaches the transport or
    is reported;
  - the mapping and host-cleaning lemmas.
- `beatfinder.dfy` (module `BeatFinder`) holds the data model and `Step`.
  `Step` is the specification of one GUI callback as a pure function over
  the router's fields. The file also holds the `BeatDetector` class and the
  `BeatPrinter` class. `BeatDetector.GuiCallback` performs the callback on
  the object's fields and is proved to have exactly the effect of `Step`.
  Calls on the parent window and on the OSC client are recorded as `Event`s
  in a ghost log, in the order they are made.
- `beatfinder_properties.dfy` (module `BeatFinderProperties`) holds what the
  router promises:
  - per callback;
  - over runs of callbacks (`Run`): the forwarding cadence and the level
    queue;
  - together with the OSC client's gate.

Abstractions:

- The tempo analyser and the RMS computation are replaced by a `Buffer` for
  each callback. It holds the onset flag, the already-rounded tempo and the
  integer level.
- The parent window's `running`, `sync`, `beat_divider` and its BPM address
  become one `Snapshot` for each callback.
- A beat divider of 0 makes the source's `%` raise `ZeroDivisionError`. It
  is modelled as the outcome `Raised`: the events already made are kept, and
  the counter is left incremented but not wrapped.
- Python's `//` is `FloorDiv`. Its contract pins the quotient as the floor for both signs of the divider.

The cadence follows the code. An informal reading of the divider is "forward
once every d accepted onsets". The counter that feeds the divider check is
reset to 0 whenever it reaches 4, so the check values cycle through 2, 3, 4,
5. As a result, divider 3 forwards one onset in four, and dividers of 6 or
more never forward. `CadenceOverBars`, `DividerThreeIsNotEveryThirdOnset`
and `LargeDividerNeverForwards` state this behaviour as the code has it.
Divider 4 fires on the third onset of each four (stored counter 2, check
value 4), not the fourth; `SlowDividedTempoShownButNotSent` exhibits such an
onset.

## Model

| member | source | states |
|---|---|---|
| OscClient.ResolumeValue | osc_client.py:44-45 | a value inside the gate maps to a Resolume parameter strictly between 0 and 1 |
| OscClient.Outgoing | osc_client.py:43-47 | with the mapping, a message exists iff 20 < value < 500; it carries a float in (0, 1) that maps back to the value. Without the mapping the value goes out unchanged as an integer |
| OscClient.Handled | osc_client.py:48-51 | a message handed to the transport is sent to the endpoint iff the transport delivers it. An OS error is reported as a socket error, any other error as an unexpected one, each naming host, port and address |
| OscClient.RemoveSpaces | osc_client.py:7 | the cleaned host contains no space, is no longer than the input, and keeps every other character with its multiplicity |
| OscClient.RemoveSpacesAppend | osc_client.py:7 | space removal distributes over concatenation, so the other characters keep their order |
| OscClient.RemoveSpacesKeepsClean | osc_client.py:7 | a host without spaces is kept exactly |
| OscClient.RemoveSpacesIdempotent | osc_client.py:7 | cleaning twice is cleaning once |
| OscClient.ResolumeRoundTrip | osc_client.py:45 | the mapping `(v - 20) / 480` is inverted by `r * 480 + 20` on every gated value |
| OscClient.ResolumeValueIncreasing | osc_client.py:45 | the mapping is strictly increasing over the gate |
| OscClient.ResolumeMidpoint | osc_client.py:44-45 | 260 BPM goes out as exactly 0.5 |
| OscClient.ResolumeBoundsDropped | osc_client.py:44 | 20, 500 and 19 produce no message: both bounds are exclusive |
| OscClient.OSCClient.constructor | osc_client.py:6-10 | the host is stored with its spaces removed, the port as given, and the transport targets that pair |
| OscClient.OSCClient.SetIp | osc_client.py:21-24 | the host is stored as given (no space removal), the port is kept, and the transport is rebuilt for the new pair |
| OscClient.OSCClient.SetPort | osc_client.py:34-37 | the port is stored, the host is kept, and the transport is rebuilt for the new pair |
| OscClient.OSCClient.SendOsc | osc_client.py:41-51 | returns normally on every input. A gated-out value leaves the log unchanged. Otherwise exactly one entry is appended: the datagram to the current endpoint, or an OS-error or unexpected-error report naming host, port and address |
| BeatFinder.FloorDiv | beatfinder.py:137 | Python's `//`: the quotient rounds towards minus infinity, for a positive and for a negative divider |
| BeatFinder.Accepted | beatfinder.py:108 | an onset is acted upon iff its rounded tempo lies strictly between 20 and 200 and the parent is running |
| BeatFinder.Status | beatfinder.py:156 | the stream continues while the parent is running and completes otherwise |
| BeatFinder.Wrap | beatfinder.py:152-153 | an incremented counter in 1..4 is reduced modulo 4: 4 becomes 0 and the others are kept |
| BeatFinder.PushLevel | beatfinder.py:94 | appending to the bounded queue grows it by one until it holds 20 entries, then keeps it at 20 |
| BeatFinder.Dispatch | beatfinder.py:109-150 | routing of an accepted onset: it raises iff sync is on and the divider is 0. Without sync it makes only a non-blinking live update. With sync it always starts with the beat notification and a blinking live update |
| BeatFinder.Step | beatfinder.py:77-156 | one callback always appends the buffer's level. The counter stays in 0..3 unless the callback raises. It raises iff the buffer is an accepted onset, sync is on and the divider is 0 |
| BeatFinder.BeatPrinter.constructor | beatfinder.py:13-15 | the spinner starts on its first glyph with nothing printed |
| BeatFinder.BeatPrinter.PrintBpm | beatfinder.py:17-20 | prints the current glyph with the tempo, then flips to the other glyph |
| BeatFinder.BeatDetector.constructor | beatfinder.py:25-67 | counter 0, tempo 128, empty level queue. A spinner exists exactly when there is no parent window |
| BeatFinder.BeatDetector.GuiCallback | beatfinder.py:77-156 | the new fields, the collaborator calls and the returned status are exactly those of `Step` on the old fields. A callback that does not raise keeps the counter in 0..3 and the queue at 20 or fewer entries |
| BeatFinder.BeatDetector.RouteOnset | beatfinder.py:108-150 | the calls made for an accepted onset, and whether the divider check raised, are exactly `Dispatch` on the incremented counter |
| BeatFinder.BeatDetector.StandaloneCallback | beatfinder.py:158-163 | an onset prints the unrounded tempo through the spinner, which flips glyph. Any other buffer changes nothing. The stream always continues |
| BeatFinder.BeatDetector.ResyncBar | beatfinder.py:165-167 | exactly one unmapped OSC send of the value 1 to the resync address |
| BeatFinderProperties.Run | beatfinder.py:38 | over any run of callbacks, which stops at the first callback that raises or returns Complete, the level queue never exceeds 20 entries |
| BeatFinderProperties.CounterCycles | beatfinder.py:104-153 | every onset, accepted or not, advances the counter modulo 4; other buffers leave it alone. A raising callback leaves it incremented and unwrapped |
| BeatFinderProperties.TempoOverwrittenOnEveryOnset | beatfinder.py:106 | every onset overwrites the stored tempo, even one the filter then rejects; other buffers keep it |
| BeatFinderProperties.RejectedOnsetIsSilent | beatfinder.py:108 | a non-onset, a tempo at or outside (20, 200), or a stopped parent calls no collaborator; the status follows `running` |
| BeatFinderProperties.ContinuesIffRunning | beatfinder.py:156 | a callback that returns asks the stream to continue iff the parent is running, and to complete otherwise |
| BeatFinderProperties.UnsyncedOnsetIsLiveOnly | beatfinder.py:148-150 | without sync an accepted onset makes only a non-blinking live update, whatever the divider |
| BeatFinderProperties.DividerOneForwardsEveryOnset | beatfinder.py:128-131 | with sync and divider 1, an accepted onset makes in order: the notification, the blinking live update, the OSC send of the raw tempo (which passes the gate), the "send" display, the LED |
| BeatFinderProperties.DividerGate | beatfinder.py:133-140 | with sync and divider d > 1, `bpm // d` is forwarded exactly when `(counter + 1) % d == 0` on the incremented, unwrapped counter |
| BeatFinderProperties.ZeroDividerRaises | beatfinder.py:125-133 | divider 0 raises after the notification and the live update, with nothing forwarded |
| BeatFinderProperties.SyncedOnset | beatfinder.py:104-153 | an accepted synced onset with a positive divider continues the stream and advances the counter modulo 4 |
| BeatFinderProperties.SyncedOnsetSends | beatfinder.py:128-140 | such an onset sends one OSC message when its check value passes the divider, and none otherwise |
| BeatFinderProperties.AcceptedStep | beatfinder.py:104-153 | an accepted onset's calls are those of `Dispatch` on the incremented counter. Unless it raises, the counter wraps at 4 and the stream continues |
| BeatFinderProperties.DispatchForwardCount | beatfinder.py:128-140 | with sync and a positive divider, routing sends one OSC message iff the check passes |
| BeatFinderProperties.RunForwards | beatfinder.py:104-153 | over any run of accepted synced onsets, the OSC sends are counted by the reference count `Hits` |
| BeatFinderProperties.RunCounter | beatfinder.py:104-153 | over any run of accepted synced onsets, the counter ends at its start plus the run's length, modulo 4 |
| BeatFinderProperties.RateCountsChecks | beatfinder.py:133 | the check values 2, 3, 4, 5 of one bar pass divider d exactly `ForwardRate(d)` times: 4, 2, 1, 1, 1 for d = 1..5, and 0 from 6 on |
| BeatFinderProperties.HitsOverBars | beatfinder.py:133-153 | k bars of onsets pass the divider check k times `ForwardRate(d)`, wherever the counter starts |
| BeatFinderProperties.CadenceOverBars | beatfinder.py:128-153 | over whole bars of accepted synced onsets, the OSC sends are the number of bars times `ForwardRate(d)` |
| BeatFinderProperties.BarsKeepCounter | beatfinder.py:152-153 | after whole bars the counter is back where it started |
| BeatFinderProperties.DividerThreeIsNotEveryThirdOnset | beatfinder.py:133 | twelve accepted onsets with divider 3 forward three times, not four |
| BeatFinderProperties.HitsLargeDivider | beatfinder.py:133 | a divider of 6 or more never passes the check |
| BeatFinderProperties.LargeDividerNeverForwards | beatfinder.py:133-153 | with a divider of 6 or more, no run of accepted onsets ever sends over OSC |
| BeatFinderProperties.PushLevelKeepsNewest | beatfinder.py:94 | one append keeps the newest 20 of the old entries plus the new level, oldest first |
| BeatFinderProperties.LevelQueueKeepsNewest | beatfinder.py:38 | however many levels are appended, the queue holds the newest 20 of all of them, oldest first |
| BeatFinderProperties.TwentyFiveLevels | beatfinder.py:38 | 25 levels appended to an empty queue leave the last 20 |
| BeatFinderProperties.RunKeepsNewestLevels | beatfinder.py:94 | every callback, onset or not, appends its level. After a run while the parent is running and that cannot raise, the queue holds the newest 20 levels of the run |
| BeatFinderProperties.StoppedParentEndsRun | beatfinder.py:155-156 | a callback made while the parent is not running returns Complete, which ends the stream: the run is that one callback, whatever buffers follow |
| BeatFinderProperties.RouterSendsPassGateIffAbove20 | beatfinder.py:128-138 | every OSC send the router makes asks for the Resolume mapping, and reaches the wire iff its value is above 20. Tempos and divided tempos stay below 200, so the gate's upper bound never applies |
| BeatFinderProperties.FloorDivBelow | beatfinder.py:137 | dividing a positive tempo by a non-zero divider never increases it |
| BeatFinderProperties.SlowDividedTempoShownButNotSent | beatfinder.py:133-140 | 83 BPM with divider 4 on the third onset of a bar (stored counter 2, check value 4) updates the "send" display with 20, but the OSC client drops 20 |
| BeatFinderProperties.ResyncReachesWire | beatfinder.py:167 | the resync value 1 is sent unmapped and always reaches the transport |

## Left out

- Tempo and onset detection (aubio `tempo`), Python's `round` of the tempo, and the RMS level computation (numpy) are not modelled. Their results are the `Buffer` fields of each callback. The model's level is a natural number, so a NaN level is not represented.
- The pyaudio stream is not modelled: opening it, the device index, the sample rate, the buffer size and `__del__`. The error message printed when the stream cannot be opened, and `show_error_message` on the parent, are left out too.
- Only the no-error path of opening the stream is modelled. In the source the console spinner is created only after the stream opened successfully. `BeatFinder.BeatDetector.constructor` always creates it when there is no parent window.
- The shared-state lock (`bpm_lock`) and concurrency are left out. `running`, `sync` and `beat_divider` are read as one `Snapshot` for the whole callback, so a concurrent change between two reads inside one callback is not modelled.
- The parent window's methods (`process_detected_beat`, `update_bpm_display`, `next_led`) are not modelled. Calls to them appear only as recorded events.
- The commented-out blink of the resync button is not modelled.
- The spinner's text formatting (tab, one decimal, "BPM") is left out. A printed line is modelled as the glyph plus the tempo.
- The standalone `__main__` block is not modelled.
- OSC wire encoding and the UDP socket (pythonosc) are not modelled. What the transport does with a message is an input of `SendOsc`, and a transport is represented by the endpoint it was built for. A `SimpleUDPClient` constructor that fails on a malformed host is not modelled. In the source a failing `ip` or `port` setter has already stored the new host or port (osc_client.py:23, 36) when the rebuild raises (osc_client.py:24, 37), leaving the client with the new pair but the old transport; `SetIp` and `SetPort` establish `Valid()` only because this failure is not modelled. Neither are `OSCclient.__del__` or the text of the printed error lines: a report keeps its kind, host, port and address.
- OscClient.ResolumeValue: the mapped value is an exact real, not a 64-bit float, so float rounding is not modelled.
- In `osc_client.py`, the module-level `import socket` sits between the property setters and `send_osc`. The model reads `send_osc` as a method of `OSCclient`, as the rest of the program calls it.
- BeatFinderProperties.Run: a run uses one `Snapshot` for all of its callbacks, so configuration changes during a run are covered only one callback at a time, by `Step`.
- `audioCapture.js` is not part of this model.
