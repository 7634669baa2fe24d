# fxDaisySynth control core in Dafny

A model of the control and voice-management logic in `fxDaisySynth.cpp`. This
is the firmware of a Daisy Pod synthesizer: a polyphonic voice pool fed by MIDI
notes, a 16-step gate sequencer, and a two-knob control surface with three
parameter modes. The model is written in the form of the firmware:

- its global variables are the fields of one class, `Firmware.Synth`;
- its routines are methods that change those fields;
- the loops that walk the voice map are `while` loops with invariants;
- the pure pieces are functions in their own modules, with lemmas about them.
  These pieces are the pool updates, the C++ remainder, the mode wrap, the
  waveform skip, the hysteresis gate, the LED encoding and the cursor.

Modules:

- `Midi` (midi.dfy): the `Byte` type for uint8_t fields and the decoded MIDI event.
- `VoicePool` (voice_pool.dfy): voices, Note-On/Note-Off updates, and the render
  pass's mark-and-sweep reaping. It also holds the scan that finds the held note.
- `Sequencer` (sequencer.dfy): the step record, the cursor, and the step edit made
  by controllers 102..117.
- `Controls` (controls.dfy): C++ `%`, the mode wrap, the waveform step, the
  hysteresis gate, the knob-to-parameter routing and the LEDs.
- `Firmware` (firmware.dfy): class `Synth`, holding the global state. Its methods
  are `HandleMidiMessage`, `NextSamples` (split into `RenderVoices` and
  `StepSequencer`), `UpdateEncoder`, `UpdateKnobs`, `UpdateLeds`, `UpdateButtons`
  and `Controls`. Its constructor is the initialisation in `main`.

The library objects are the oscillators, the ladder filters, the envelopes, the
LFO, the `Metro` clock and the knob curves. They are not modelled. What the
firmware writes into them is kept in fields: filter frequency and resonance, LFO
rate and depth, the sequencer oscillator's pitch and its envelope's decay, each
voice's waveform and envelope settings, and the LED colours. What they report
comes in as method parameters: each voice's envelope level and sample, the clock
tick, the envelope's running flag, and the knob readings and their curves.
`mtof` is kept symbolic: `PitchPlus(p, offset)` stands for `mtof(p) + offset`.

The class invariant `Synth.Valid` holds after every routine:

- the step table has 16 entries and the cursor is below 16;
- the mode is 0, 1 or 2;
- the waveform is one of 0, 1, 2, 4 (never the ramp, 3);
- every voice is keyed by its own note and has a nonzero velocity;
- every voice's oscillator plays the selected waveform.

The model follows the code in these choices, some of which depart from MIDI
convention or from what the controls might suggest:

- A Note-On with velocity 0 is ignored. It is not treated as a Note-Off.
- A sequencer edit with an empty pool deactivates the step. With voices present
  but none held with a nonzero note, the step is left unchanged.
- The waveform steps on the encoder's push-button edge. The rotation steps the mode.
- The self-cycle toggle only drives LED 2. Nothing in this file retriggers an
  envelope from it.
- `UpdateLeds` runs before `UpdateButtons` (fxDaisySynth.cpp:452-454). So LED 2
  shows the toggle as it was before this pass's button edge.

The render pass in the source erases the current map entry and then increments
the erased iterator (fxDaisySynth.cpp:73). That is undefined behaviour in C++.
The model does what the loop evidently intends:

- `VoicePool.MixAndMark` walks the pool without changing it, summing the voices'
  samples and marking the spent ones;
- `Synth.RenderVoices` then removes exactly the marked voices.

## Model

| member | source | states |
|---|---|---|
| VoicePool.StartVoice | fxDaisySynth.cpp:221-250 | Note-On: the note gets exactly the fresh voice and any earlier voice for it is replaced. The key set gains only the note, and every other note's voice is unchanged. |
| VoicePool.ReleaseNote | fxDaisySynth.cpp:257-261 | Note-Off: the key set is unchanged. A present voice keeps every field except `isPlaying`, which becomes false. An absent note adds no entry, and other voices are unchanged. |
| VoicePool.Reap | fxDaisySynth.cpp:71-74 | A voice survives the render pass iff it is not (released and below 0.0005). Survivors keep all their fields. |
| VoicePool.PlayingVoiceSurvives | fxDaisySynth.cpp:71-74 | A voice whose key is held is never reaped, and it is kept unchanged. |
| VoicePool.ReapShrinks | fxDaisySynth.cpp:71-74 | Reaping only removes: the key set shrinks and so does the voice count. |
| VoicePool.AllSpentEmpties | fxDaisySynth.cpp:71-74 | If every voice is released and silent, one pass empties the pool. |
| VoicePool.ReapKeepsWellFormed | fxDaisySynth.cpp:71-74 | Reaping keeps the pool invariant: voices keyed by note, nonzero velocity, current waveform. |
| VoicePool.NoteLifecycle | fxDaisySynth.cpp:221-261 | After a press and a release, the note's voice is kept, not playing. The first pass with its envelope silent removes it, and other non-spent voices stay as they were. |
| VoicePool.MixAndMark | fxDaisySynth.cpp:64-75 | The loop over the pool in ascending note order returns two things: the sum of all voices' samples, spent ones included, and exactly the set of spent notes. |
| VoicePool.MixOfEmptyPool | fxDaisySynth.cpp:64-69 | An empty pool contributes 0 to the sample. |
| VoicePool.ReleaseKeepsMix | fxDaisySynth.cpp:64-69 | Note-Off does not change the mix: a released voice keeps sounding through its release until it is reaped. |
| VoicePool.WithWaveform | fxDaisySynth.cpp:382-385 | Every voice, and no other note, ends up with the selected waveform. All its other fields are unchanged. |
| VoicePool.LastHeld | fxDaisySynth.cpp:185-194 | The scan's result is 0, or the note of some playing voice below the bound. |
| VoicePool.LastHeldIsHighest | fxDaisySynth.cpp:188-194 | The scan ends with the note of the highest-keyed playing voice, because map iteration is ascending. |
| VoicePool.LastHeldNone | fxDaisySynth.cpp:185-194 | With no playing voice the scan yields 0. |
| VoicePool.ScanHeldNote | fxDaisySynth.cpp:185-194 | The loop that overwrites `currNotes` with each playing voice's note computes `HeldNote`. That is 0 or the note of a playing voice. |
| Sequencer.NextCursor | fxDaisySynth.cpp:116-117 | The uint8 increment followed by `%= 16` stays below 16 and equals (cursor+1) mod 16 for every byte. It steps 15 to 0 and otherwise adds one. |
| Sequencer.AdvanceIsModular | fxDaisySynth.cpp:114-117 | From a cursor below 16, n ticks give (cursor + n) mod 16. |
| Sequencer.CursorPeriod | fxDaisySynth.cpp:114-117 | After 16 more ticks the cursor is back where it was. |
| Sequencer.CursorReaches | fxDaisySynth.cpp:114-117 | Within 16 ticks the cursor reaches every step index. |
| Sequencer.EditStepCases | fxDaisySynth.cpp:184-205 | On an empty pool the step becomes inactive. If the highest held voice has a note k > 0, the step becomes (k, active, 0.2). A nonempty pool with no held nonzero note leaves the step unchanged. |
| Sequencer.EditedSteps | fxDaisySynth.cpp:180-206 | Only a controller in 102..117 with value > 0 changes the table, and only step control-102. Any other message leaves all 16 steps unchanged. |
| Controls.CppRem | fxDaisySynth.cpp:373 | C++ `%`: quotient times divisor plus remainder gives back the dividend. The remainder is smaller than the divisor in magnitude and takes the dividend's sign. |
| Controls.WrapMode | fxDaisySynth.cpp:387-388 | `(mode % 3 + 3) % 3` with C++ remainders is always in 0..2. It equals the Euclidean remainder for any signed sum. |
| Controls.NextWave | fxDaisySynth.cpp:372-379 | The new waveform is never 3. From a non-negative waveform it is in 0..4. It maps the selectable set {0,1,2,4} to itself, and without a button edge it does not change. |
| Controls.WaveCycle | fxDaisySynth.cpp:372-379 | Button presses cycle saw, square, sine, triangle, saw. |
| Controls.ConditionalParameter | fxDaisySynth.cpp:358-367 | The parameter takes the update iff the knob moved by more than 0.00005. Otherwise it keeps its value. |
| Controls.Routed | fxDaisySynth.cpp:396-416 | Only the active mode's pair can change: cutoff/res, attack/release or lfoFreq/lfoAmp. An unmoved knob changes nothing. A moved knob gives its pair member that mode's new value. |
| Controls.UnmovedKnobsChangeNothing | fxDaisySynth.cpp:391-417 | If both knobs read what they read last pass, no parameter changes in any mode. |
| Controls.ModeLed | fxDaisySynth.cpp:421 | LED 1 is one-hot for modes 0..2: blue iff mode 0, green iff mode 1, red iff mode 2. |
| Controls.ModeLedDistinguishes | fxDaisySynth.cpp:421 | Different modes light LED 1 differently. |
| Controls.SelfCycleLed | fxDaisySynth.cpp:422 | LED 2 has red off, and green and blue equal the self-cycle flag. |
| Firmware.Synth.constructor | fxDaisySynth.cpp:273-328 | Start-up state: empty pool, cursor 0, mode 0, saw waveform, knobs 0, all 16 steps (110, inactive, 0.1). The initial parameters, filter, LFO and oscillator settings are given. |
| Firmware.Synth.HandleMidiMessage | fxDaisySynth.cpp:157-267 | Note-On with velocity > 0 replaces the note's voice with a fresh one built from the current waveform and envelope settings. Velocity 0 leaves the pool unchanged. Note-Off equals `ReleaseNote`. CC 1 retunes both filters (+100 Hz on the second) and CC 2 sets the resonance to value/127. The step table changes only as `EditedSteps` says. |
| Firmware.Synth.RenderVoices | fxDaisySynth.cpp:64-75 | The returned sum is the mix of the old pool. The new pool is `Reap` of the old one. |
| Firmware.Synth.StepSequencer | fxDaisySynth.cpp:110-132 | A tick advances the cursor by `NextCursor` and triggers iff the new step is active. An active step applies its decay and pitch and retriggers iff the envelope is not running. An inactive step changes no setting. |
| Firmware.Synth.NextSamples | fxDaisySynth.cpp:59-135 | One sample is the voice pass (mix, then reap) followed by the sequencer pass, with both passes' postconditions. |
| Firmware.Synth.UpdateEncoder | fxDaisySynth.cpp:370-389 | `wave` becomes `NextWave`, `mode` becomes `WrapMode(mode + increment)`, and every voice takes the new waveform. |
| Firmware.Synth.RetuneVoices | fxDaisySynth.cpp:381-385 | The loop over the pool leaves it equal to `WithWaveform(pool, wave)`. |
| Firmware.Synth.UpdateKnobs | fxDaisySynth.cpp:391-417 | The current readings are stored, and the parameters become `Routed` of the old ones. Filter mode applies cutoff (+100 Hz twin) and res to the filters. LFO mode applies rate and depth×100 to the LFO. Other settings are unchanged. |
| Firmware.Synth.RouteFilterKnobs | fxDaisySynth.cpp:398-404 | Cutoff and res pass the gate with their curves, then are applied to both filters. |
| Firmware.Synth.RouteEnvelopeKnobs | fxDaisySynth.cpp:405-408 | Attack and release pass the gate with a second read of each knob. |
| Firmware.Synth.RouteLfoKnobs | fxDaisySynth.cpp:409-413 | LFO rate and depth pass the gate, then are applied to the LFO, with the depth scaled by 100. |
| Firmware.Synth.UpdateLeds | fxDaisySynth.cpp:419-428 | LED 1 shows the mode and LED 2 the toggle. The last readings become this pass's readings. |
| Firmware.Synth.UpdateButtons | fxDaisySynth.cpp:430-441 | A rising edge of button 2 flips `selfCycle`, and nothing else changes. |
| Firmware.Synth.Controls | fxDaisySynth.cpp:443-454 | The block's control pass runs the encoder, knobs, LEDs and buttons in that order. Afterwards the last readings equal this pass's readings, and the parameters are `Routed` against the previous pass's readings. In the new mode 0 both filters take the cutoff (+100 Hz twin) and the main filter takes the resonance. In mode 2 the LFO takes rate and depth×100. Otherwise these settings are unchanged. LED 2 shows the toggle from before the button edge. |

## Left out

- The DaisySP sound primitives are not modelled: oscillators, MoogLadder filters, Adsr/AdEnv envelopes, the LFO, the `Metro` clock and `mtof`. Their per-sample outputs are method parameters. `mtof` is kept as a symbolic `PitchPlus` frequency.
- The `Parameter` log/linear knob curves and the second knob reads are not modelled. They arrive as fields of `Readings`.
- Audio buffer I/O in `AudioCallback` is not modelled: the stereo duplication and the block loop that calls `Controls` and `NextSamples`.
- The sequencer's audio is not modelled: its envelope output, oscillator amplitude and sample, and the final filter pass. `NextSamples` returns the voice sum and the envelope triggers instead of the output sample.
- The per-sample vibrato retune of each voice's oscillator (`mtof(note) + vibrato`) is not modelled, because it is float DSP.
- A released voice's envelope is processed twice per sample (fxDaisySynth.cpp:68 and 71). The `&&` at line 71 short-circuits, so a held voice's envelope is processed once. The model takes each voice's sample as the `out` input. It takes the second envelope result as the `level` input, which only matters for released voices: `Spent` reads it only when `isPlaying` is false.
- The USB debug trace of Note-On events is not modelled. It is an I/O side effect only.
- MIDI transport polling, hardware initialisation, the ADC, and the LED driver's `UpdateLeds` are not modelled.
- Concurrency between the audio interrupt and the MIDI polling loop is not modelled. Each routine is a separate sequential method.
- The commented-out resonance-blend code (fxDaisySynth.cpp:83-108) is not modelled, because it is dead code.
- Float arithmetic is modelled as exact `real`. This covers the 0.00005 gate, the 0.0005 threshold, value/127 and gain×sustain. C++ `abs` on the knob difference is read as the floating-point absolute value.
- Firmware.Synth.UpdateEncoder: `wave` and `mode` are unbounded integers. `mode + increment` cannot overflow an `int` in practice: the mode is in 0..2 and the increment is one block's encoder count.
- The sequencer oscillator's `SetWaveform(wave)` in `UpdateEncoder` (fxDaisySynth.cpp:381) is not kept in a field, because that setting always equals `wave`.
- `WAVE_POLYBLEP_TRI` is taken to be 5, its position in the DaisySP oscillator's waveform enum. The library headers are not part of this model.
