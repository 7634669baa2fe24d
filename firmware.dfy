/** The firmware's global state and the routines that change it: the MIDI
    event handler, the per-sample render and sequencer pass, and the
    per-block control pass. Library objects (oscillators, filters,
    envelopes, the clock, the knobs) are not modelled; what the firmware
    hands to them is kept in fields, and what they report comes in as
    parameters. */
module Firmware {
  import opened Midi
  import opened VoicePool
  import opened Sequencer
  import opened Controls

  /** A frequency handed to a library oscillator or filter: in Hz, or as the
      equal-tempered frequency of a MIDI pitch plus an offset in Hz. The
      pitch conversion belongs to the library and is kept symbolic. */
  datatype Freq = Hz(hz: real) | PitchPlus(pitch: real, offsetHz: real)

  /** What the firmware last set on a ladder filter: cutoff and resonance. */
  datatype FilterSetting = FilterSetting(freq: Freq, res: real)

  /** What the firmware last set on the LFO: rate in Hz and depth. */
  datatype LfoSetting = LfoSetting(rate: real, depth: real)

  /** A segment time of the sequencer's envelope: the library's default
      until the firmware sets one. */
  datatype EnvTime = LibraryDefault | Seconds(s: real)

  class Synth {
    // Voice pool.
    var voices: Pool
    // Step sequencer: the 16-step table and its cursor.
    var sequence: array<SeqStep>
    var step: Byte
    // Encoder selections: oscillator waveform and parameter mode.
    var wave: int
    var mode: int
    // Knob readings of this control pass and of the previous one.
    var oldk1: real
    var oldk2: real
    var k1: real
    var k2: real
    var selfCycle: bool
    // Sound parameters.
    var attack: real
    var decay: real
    var sustain: real
    var release: real
    var cutoff: real
    var res: real
    var lfoFreq: real
    var lfoAmp: real
    // Settings last handed to the library objects: main filter, its
    // zero-resonance twin, LFO, the sequencer's oscillator and envelope,
    // and the two status LEDs.
    var flt: FilterSetting
    var fltLow: FilterSetting
    var lfo: LfoSetting
    var seqOscFreq: Freq
    var seqDecay: EnvTime
    var led1: Rgb
    var led2: Rgb

    /** The state invariant every routine keeps. */
    ghost predicate Valid()
      reads this
    {
      sequence.Length == StepCount && step < StepCount && 0 <= mode < ModeCount &&
      ValidWave(wave) && WellFormed(voices, wave)
    }

    /** The knob-controlled parameters as one record. */
    function CurrentParams(): Params
      reads this
    {
      Params(cutoff, res, attack, release, lfoFreq, lfoAmp)
    }

    /** Start-up: the initial values `main` assigns, the global initialisers,
        and the step table filled with inactive steps. */
    constructor ()
      ensures Valid() && fresh(sequence)
      ensures voices == map[] && step == 0 && mode == 0 && wave == WaveSaw && !selfCycle
      ensures forall i :: 0 <= i < StepCount ==> sequence[i] == InitialStep
      ensures oldk1 == 0.0 && oldk2 == 0.0 && k1 == 0.0 && k2 == 0.0
      ensures CurrentParams() == Params(10000.0, 0.0, 0.01, 0.8, 0.1, 1.0)
      ensures decay == 0.8 && sustain == 0.4
      ensures flt == FilterSetting(Hz(10000.0), 0.8) && fltLow == FilterSetting(Hz(1100.0), 0.0)
      ensures lfo == LfoSetting(0.1, 1.0)
      ensures seqOscFreq == Hz(440.0) && seqDecay == LibraryDefault
      ensures led1 == Rgb(false, false, false) && led2 == Rgb(false, false, false)
    {
      voices := map[];
      step := 0;
      wave := WaveSaw;
      mode := 0;
      oldk1, oldk2, k1, k2 := 0.0, 0.0, 0.0, 0.0;
      selfCycle := false;
      attack, decay, sustain, release := 0.01, 0.8, 0.4, 0.8;
      cutoff, res := 10000.0, 0.0;
      lfoFreq, lfoAmp := 0.1, 1.0;
      flt, fltLow := FilterSetting(Hz(10000.0), 0.8), FilterSetting(Hz(1100.0), 0.0);
      lfo := LfoSetting(0.1, 1.0);
      seqOscFreq, seqDecay := Hz(440.0), LibraryDefault;
      led1, led2 := Rgb(false, false, false), Rgb(false, false, false);
      var steps := new SeqStep[StepCount];
      for i := 0 to StepCount
        invariant forall j :: 0 <= j < i ==> steps[j] == InitialStep
      {
        steps[i] := InitialStep;
      }
      sequence := steps;
    }

    /** One MIDI event. Note-On with a nonzero velocity replaces the note's
        voice with a fresh one; with velocity 0 it is ignored. Note-Off
        releases the note's voice if there is one. Controller 1 retunes both
        filters, controller 2 sets the resonance, and controllers 102..117
        with a nonzero value edit a sequencer step from the held notes. */
    method HandleMidiMessage(m: MidiEvent)
      requires Valid()
      modifies this`voices, this`flt, this`fltLow, sequence
      ensures Valid()
      ensures m.NoteOn? ==>
                voices == if m.velocity != 0
                          then StartVoice(old(voices), FreshVoice(m.note, m.velocity, wave,
                                                                  attack, decay, release, sustain))
                          else old(voices)
      ensures m.NoteOff? ==> voices == ReleaseNote(old(voices), m.note)
      ensures m.ControlChange? || m.OtherMessage? ==> voices == old(voices)
      ensures m.ControlChange? ==>
                sequence[..] == EditedSteps(old(sequence[..]), old(voices), m.control, m.value)
      ensures !m.ControlChange? ==> sequence[..] == old(sequence[..])
      ensures m.ControlChange? && m.control == 1 ==>
                flt == old(flt).(freq := PitchPlus(m.value as real, 0.0)) &&
                fltLow == old(fltLow).(freq := PitchPlus(m.value as real, 100.0))
      ensures m.ControlChange? && m.control == 2 ==>
                flt == old(flt).(res := m.value as real / 127.0) && fltLow == old(fltLow)
      ensures !(m.ControlChange? && (m.control == 1 || m.control == 2)) ==>
                flt == old(flt) && fltLow == old(fltLow)
    {
      match m
      case NoteOn(note, velocity) =>
        // The handler tests the raw data byte and then the decoded
        // velocity; both are the velocity byte.
        if velocity != 0 {
          var v := FreshVoice(note, velocity, wave, attack, decay, release, sustain);
          if note in voices {
            voices := voices - {note};
          }
          voices := voices[note := v];
        }
      case NoteOff(note, _) =>
        if note in voices {
          voices := voices[note := voices[note].(isPlaying := false)];
        }
      case ControlChange(control, value) =>
        if control == 1 {
          flt := flt.(freq := PitchPlus(value as real, 0.0));
          fltLow := fltLow.(freq := PitchPlus(value as real, 100.0));
        } else if control == 2 {
          flt := flt.(res := value as real / 127.0);
        }
        if FirstEditControl <= control <= LastEditControl && value > 0 {
          var i := control - FirstEditControl;
          if voices != map[] {
            var currNotes := ScanHeldNote(voices);
            if currNotes > 0 {
              sequence[i] := SeqStep(currNotes, true, EditDecay);
            }
          } else {
            sequence[i] := sequence[i].(active := false);
          }
        }
      case OtherMessage =>
    }

    /** The voice part of the per-sample pass: every voice's sample is
        summed, then every voice that is released and whose envelope output
        (`level`) is below the silence threshold is removed. `out` gives each
        voice's sample. */
    method RenderVoices(out: Byte -> real, level: Byte -> real) returns (sum: real)
      requires Valid()
      modifies this`voices
      ensures Valid()
      ensures sum == Mix(old(voices), out, 256)
      ensures voices == Reap(old(voices), level)
    {
      var spent;
      sum, spent := MixAndMark(voices, out, level);
      voices := voices - spent;
    }

    /** The sequencer part of the per-sample pass. On a clock tick the
        cursor advances and an active step triggers the envelope
        (`tickTrigger`). While the current step is active, its decay and
        pitch are applied, and the envelope is triggered again whenever it
        reports that it is not running (`envRunning` is what it reports at
        that point; `idleTrigger` is the trigger). */
    method StepSequencer(tick: bool, envRunning: bool) returns (tickTrigger: bool, idleTrigger: bool)
      requires Valid()
      modifies this`step, this`seqDecay, this`seqOscFreq
      ensures Valid()
      ensures step == if tick then NextCursor(old(step)) else old(step)
      ensures tickTrigger == (tick && sequence[step].active)
      ensures sequence[step].active ==>
                seqDecay == Seconds(sequence[step].decay) &&
                seqOscFreq == PitchPlus(sequence[step].note as real, 0.0)
      ensures !sequence[step].active ==> seqDecay == old(seqDecay) && seqOscFreq == old(seqOscFreq)
      ensures idleTrigger == (sequence[step].active && !envRunning)
    {
      tickTrigger, idleTrigger := false, false;
      if tick {
        step := NextCursor(step);
        if sequence[step].active {
          tickTrigger := true;
        }
      }
      if sequence[step].active {
        seqDecay := Seconds(sequence[step].decay);
        seqOscFreq := PitchPlus(sequence[step].note as real, 0.0);
        if !envRunning {
          idleTrigger := true;
        }
      }
    }

    /** One output sample: the voices, then the sequencer. Returns the sum
        of the voices' samples and the sequencer envelope's triggers. */
    method NextSamples(out: Byte -> real, level: Byte -> real, tick: bool, envRunning: bool)
      returns (voiceSum: real, tickTrigger: bool, idleTrigger: bool)
      requires Valid()
      modifies this`voices, this`step, this`seqDecay, this`seqOscFreq
      ensures Valid()
      ensures voiceSum == Mix(old(voices), out, 256)
      ensures voices == Reap(old(voices), level)
      ensures step == if tick then NextCursor(old(step)) else old(step)
      ensures tickTrigger == (tick && sequence[step].active)
      ensures sequence[step].active ==>
                seqDecay == Seconds(sequence[step].decay) &&
                seqOscFreq == PitchPlus(sequence[step].note as real, 0.0)
      ensures !sequence[step].active ==> seqDecay == old(seqDecay) && seqOscFreq == old(seqOscFreq)
      ensures idleTrigger == (sequence[step].active && !envRunning)
    {
      voiceSum := RenderVoices(out, level);
      tickTrigger, idleTrigger := StepSequencer(tick, envRunning);
    }

    /** The encoder: its button's rising edge steps the waveform (skipping
        the ramp) and every voice's oscillator follows; its rotation steps
        the mode, wrapping into 0..2 in either direction. */
    method UpdateEncoder(edge: bool, increment: int)
      requires Valid()
      modifies this`wave, this`mode, this`voices
      ensures Valid()
      ensures wave == NextWave(old(wave), edge)
      ensures mode == WrapMode(old(mode) + increment)
      ensures voices == WithWaveform(old(voices), wave)
    {
      wave := CppRem(wave + (if edge then 1 else 0), WavePolyblepTri);
      if wave == WaveRamp {
        wave := WaveSquare;
      }
      RetuneVoices();
      mode := CppRem(CppRem(mode + increment, ModeCount) + ModeCount, ModeCount);
    }

    /** Every voice's oscillator takes the selected waveform; the pool is
        walked in ascending note order. */
    method RetuneVoices()
      modifies this`voices
      ensures voices == WithWaveform(old(voices), wave)
    {
      var k: nat := 0;
      while k < 256
        invariant k <= 256
        invariant voices.Keys == old(voices).Keys
        invariant forall j :: j in voices ==>
                    voices[j] == if j < k then old(voices)[j].(waveform := wave) else old(voices)[j]
      {
        if k in voices {
          voices := voices[k := voices[k].(waveform := wave)];
        }
        k := k + 1;
      }
    }

    /** The knobs: both are read, and the active mode's two parameters pass
        through the hysteresis gate against the previous readings; the
        filter mode reapplies cutoff and resonance to both filters and the
        LFO mode reapplies rate and depth to the LFO. */
    method UpdateKnobs(r: Readings)
      requires Valid()
      modifies this`k1, this`k2, this`cutoff, this`res, this`attack, this`release,
               this`lfoFreq, this`lfoAmp, this`flt, this`fltLow, this`lfo
      ensures Valid()
      ensures k1 == r.knob1 && k2 == r.knob2
      ensures CurrentParams() == Routed(mode, old(CurrentParams()), oldk1, oldk2, r)
      ensures mode == 0 ==>
                flt == FilterSetting(Hz(cutoff), res) && fltLow == old(fltLow).(freq := Hz(cutoff + 100.0))
      ensures mode != 0 ==> flt == old(flt) && fltLow == old(fltLow)
      ensures mode == 2 ==> lfo == LfoSetting(lfoFreq, lfoAmp * 100.0)
      ensures mode != 2 ==> lfo == old(lfo)
    {
      k1 := r.knob1;
      k2 := r.knob2;
      // Valid() keeps the mode in 0..2, so the switch's default case is never taken.
      if mode == 0 {
        RouteFilterKnobs(r);
      } else if mode == 1 {
        RouteEnvelopeKnobs(r);
      } else {
        RouteLfoKnobs(r);
      }
    }

    /** Filter mode: knob 1 gates the cutoff, knob 2 the resonance; both are
        then applied to the filters. */
    method RouteFilterKnobs(r: Readings)
      modifies this`cutoff, this`res, this`flt, this`fltLow
      ensures cutoff == ConditionalParameter(oldk1, k1, old(cutoff), r.cutoffCurve)
      ensures res == ConditionalParameter(oldk2, k2, old(res), r.resCurve)
      ensures flt == FilterSetting(Hz(cutoff), res) && fltLow == old(fltLow).(freq := Hz(cutoff + 100.0))
    {
      cutoff := ConditionalParameter(oldk1, k1, cutoff, r.cutoffCurve);
      res := ConditionalParameter(oldk2, k2, res, r.resCurve);
      flt := flt.(freq := Hz(cutoff));
      fltLow := fltLow.(freq := Hz(cutoff + 100.0));
      flt := flt.(res := res);
    }

    /** Envelope mode: the knobs gate attack and release, each taking a
        second read of its knob as the new value. */
    method RouteEnvelopeKnobs(r: Readings)
      modifies this`attack, this`release
      ensures attack == ConditionalParameter(oldk1, k1, old(attack), r.knob1Again)
      ensures release == ConditionalParameter(oldk2, k2, old(release), r.knob2Again)
    {
      attack := ConditionalParameter(oldk1, k1, attack, r.knob1Again);
      release := ConditionalParameter(oldk2, k2, release, r.knob2Again);
    }

    /** LFO mode: knob 1 gates the LFO rate, knob 2 its depth; both are then
        applied to the LFO, the depth scaled by 100. */
    method RouteLfoKnobs(r: Readings)
      modifies this`lfoFreq, this`lfoAmp, this`lfo
      ensures lfoFreq == ConditionalParameter(oldk1, k1, old(lfoFreq), r.lfoCurve)
      ensures lfoAmp == ConditionalParameter(oldk2, k2, old(lfoAmp), r.knob2Again)
      ensures lfo == LfoSetting(lfoFreq, lfoAmp * 100.0)
    {
      lfoFreq := ConditionalParameter(oldk1, k1, lfoFreq, r.lfoCurve);
      lfoAmp := ConditionalParameter(oldk2, k2, lfoAmp, r.knob2Again);
      lfo := lfo.(rate := lfoFreq);
      lfo := lfo.(depth := lfoAmp * 100.0);
    }

    /** The LEDs show the mode and the self-cycle toggle, and this pass's
        knob readings become the reference for the next pass's gate. */
    method UpdateLeds()
      requires Valid()
      modifies this`led1, this`led2, this`oldk1, this`oldk2
      ensures Valid()
      ensures led1 == ModeLed(mode) && led2 == SelfCycleLed(selfCycle)
      ensures oldk1 == k1 && oldk2 == k2
    {
      led1 := ModeLed(mode);
      led2 := SelfCycleLed(selfCycle);
      oldk1 := k1;
      oldk2 := k2;
    }

    /** The buttons: a rising edge of button 2 flips the self-cycle toggle.
        Button 1 is read but has no effect. */
    method UpdateButtons(button2Edge: bool)
      requires Valid()
      modifies this`selfCycle
      ensures Valid()
      ensures selfCycle == (old(selfCycle) != button2Edge)
    {
      if button2Edge {
        selfCycle := !selfCycle;
      }
    }

    /** The control pass run once per audio block: encoder, knobs, LEDs,
        buttons, in that order. LED 2 therefore shows the toggle as it was
        before this pass's button edge. */
    method Controls(edge: bool, increment: int, r: Readings, button2Edge: bool)
      requires Valid()
      modifies this`wave, this`mode, this`voices, this`k1, this`k2, this`cutoff, this`res,
               this`attack, this`release, this`lfoFreq, this`lfoAmp, this`flt, this`fltLow, this`lfo,
               this`led1, this`led2, this`oldk1, this`oldk2, this`selfCycle
      ensures Valid()
      ensures wave == NextWave(old(wave), edge) && mode == WrapMode(old(mode) + increment)
      ensures voices == WithWaveform(old(voices), wave)
      ensures CurrentParams() == Routed(mode, old(CurrentParams()), old(oldk1), old(oldk2), r)
      ensures k1 == r.knob1 && k2 == r.knob2 && oldk1 == r.knob1 && oldk2 == r.knob2
      ensures led1 == ModeLed(mode) && led2 == SelfCycleLed(old(selfCycle))
      ensures selfCycle == (old(selfCycle) != button2Edge)
      ensures mode == 0 ==>
                flt == FilterSetting(Hz(cutoff), res) && fltLow == old(fltLow).(freq := Hz(cutoff + 100.0))
      ensures mode != 0 ==> flt == old(flt) && fltLow == old(fltLow)
      ensures mode == 2 ==> lfo == LfoSetting(lfoFreq, lfoAmp * 100.0)
      ensures mode != 2 ==> lfo == old(lfo)
    {
      UpdateEncoder(edge, increment);
      UpdateKnobs(r);
      ghost var routed, filters, lfoSet := CurrentParams(), (flt, fltLow), lfo;
      UpdateLeds();
      UpdateButtons(button2Edge);
      assert CurrentParams() == routed && (flt, fltLow) == filters && lfo == lfoSet;
    }
  }
}
