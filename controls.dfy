/** The control surface: the encoder's waveform and mode selection, the
    hysteresis gate between the two knobs and the parameters of the active
    mode, and the two status LEDs. */
module Controls {

  /** Oscillator waveforms of the DaisySP oscillator, by enum position. */
  const WaveSaw := 2
  const WaveRamp := 3
  const WaveSquare := 4
  const WavePolyblepTri := 5

  /** Number of parameter groups the encoder cycles through. */
  const ModeCount := 3

  /** A knob must move further than this before it changes a parameter. */
  const KnobThreshold: real := 0.00005

  function Abs(x: int): int
  {
    if x < 0 then -x else x
  }

  function RealAbs(x: real): real
  {
    if x < 0.0 then -x else x
  }

  /** C++ `a / b` on int: the quotient truncated toward zero. */
  function CppQuot(a: int, b: int): int
    requires b != 0
  {
    if (a >= 0) == (b > 0) then Abs(a) / Abs(b) else -(Abs(a) / Abs(b))
  }

  /** C++ `a % b` on int: what is left after the truncated quotient, so the
      remainder takes the sign of `a` (Dafny's own `%` is Euclidean). */
  function CppRem(a: int, b: int): (r: int)
    requires b != 0
    ensures CppQuot(a, b) * b + r == a
    ensures -Abs(b) < r < Abs(b)
    ensures a >= 0 ==> r >= 0
    ensures a <= 0 ==> r <= 0
  {
    if a >= 0 then a % Abs(b) else -((-a) % Abs(b))
  }

  /** `(mode % 3 + 3) % 3` with C++ remainders: always a mode in 0..2, and
      the same value as the Euclidean remainder of `m` by 3. */
  function WrapMode(m: int): (r: int)
    ensures 0 <= r < ModeCount
    ensures r == m % ModeCount
  {
    CppRem(CppRem(m, ModeCount) + ModeCount, ModeCount)
  }

  /** The waveforms the encoder button can select: saw-like ramp (3) is skipped. */
  predicate ValidWave(w: int)
  {
    w == 0 || w == 1 || w == 2 || w == 4
  }

  /** The waveform after one encoder pass: one step on a rising edge of the
      encoder's button, wrapped below WAVE_POLYBLEP_TRI with a C++ remainder,
      and the ramp replaced by the square wave. */
  function NextWave(w: int, edge: bool): (r: int)
    ensures r != WaveRamp
    ensures w >= 0 ==> 0 <= r < WavePolyblepTri
    ensures ValidWave(w) ==> ValidWave(r)
    ensures !edge && ValidWave(w) ==> r == w
  {
    var x := CppRem(w + (if edge then 1 else 0), WavePolyblepTri);
    if x == WaveRamp then WaveSquare else x
  }

  /** Four presses of the encoder button walk saw, square, sine, triangle
      and come back: every selectable waveform is reached and none is
      visited twice. */
  lemma WaveCycle()
    ensures NextWave(WaveSaw, true) == WaveSquare
    ensures NextWave(WaveSquare, true) == 0
    ensures NextWave(0, true) == 1
    ensures NextWave(1, true) == WaveSaw
  {
  }

  /** The gate test: the knob moved by more than the threshold since the
      last reading. */
  predicate Moved(oldVal: real, newVal: real)
  {
    RealAbs(oldVal - newVal) > KnobThreshold
  }

  /** The new value of a parameter fed through the hysteresis gate: the
      knob's mapped value if the knob moved, the old value otherwise. */
  function ConditionalParameter(oldVal: real, newVal: real, param: real, update: real): (r: real)
    ensures Moved(oldVal, newVal) ==> r == update
    ensures !Moved(oldVal, newVal) ==> r == param
  {
    if Moved(oldVal, newVal) then update else param
  }

  /** The parameters the knobs control, one pair per mode. */
  datatype Params = Params(cutoff: real, res: real, attack: real, release: real,
                           lfoFreq: real, lfoAmp: real)

  /** One control pass's readings. `knob1` and `knob2` are the raw knob
      positions; the curves are the library's log/linear mappings of them
      (cutoff, resonance, LFO rate); `knob1Again`/`knob2Again` are the values
      a second read of each knob returns. */
  datatype Readings = Readings(knob1: real, knob2: real,
                               cutoffCurve: real, resCurve: real, lfoCurve: real,
                               knob1Again: real, knob2Again: real)

  /** The parameters after the knobs are routed to the active mode's pair. */
  function Routed(mode: int, p: Params, oldk1: real, oldk2: real, r: Readings): (q: Params)
    ensures mode != 0 ==> q.cutoff == p.cutoff && q.res == p.res
    ensures mode != 1 ==> q.attack == p.attack && q.release == p.release
    ensures mode != 2 ==> q.lfoFreq == p.lfoFreq && q.lfoAmp == p.lfoAmp
    ensures !Moved(oldk1, r.knob1) ==> q.cutoff == p.cutoff && q.attack == p.attack && q.lfoFreq == p.lfoFreq
    ensures !Moved(oldk2, r.knob2) ==> q.res == p.res && q.release == p.release && q.lfoAmp == p.lfoAmp
    ensures Moved(oldk1, r.knob1) ==>
              (mode == 0 ==> q.cutoff == r.cutoffCurve) &&
              (mode == 1 ==> q.attack == r.knob1Again) &&
              (mode == 2 ==> q.lfoFreq == r.lfoCurve)
    ensures Moved(oldk2, r.knob2) ==>
              (mode == 0 ==> q.res == r.resCurve) &&
              (mode == 1 ==> q.release == r.knob2Again) &&
              (mode == 2 ==> q.lfoAmp == r.knob2Again)
  {
    match mode
    case 0 =>
      p.(cutoff := ConditionalParameter(oldk1, r.knob1, p.cutoff, r.cutoffCurve),
         res := ConditionalParameter(oldk2, r.knob2, p.res, r.resCurve))
    case 1 =>
      p.(attack := ConditionalParameter(oldk1, r.knob1, p.attack, r.knob1Again),
         release := ConditionalParameter(oldk2, r.knob2, p.release, r.knob2Again))
    case 2 =>
      p.(lfoFreq := ConditionalParameter(oldk1, r.knob1, p.lfoFreq, r.lfoCurve),
         lfoAmp := ConditionalParameter(oldk2, r.knob2, p.lfoAmp, r.knob2Again))
    case _ => p
  }

  /** Knobs that have not moved since the last pass leave every parameter
      unchanged, whatever the mode: switching modes alone changes nothing. */
  lemma UnmovedKnobsChangeNothing(mode: int, p: Params, r: Readings)
    ensures Routed(mode, p, r.knob1, r.knob2, r) == p
  {
  }

  /** A bicolor-LED setting: red, green and blue on or off. */
  datatype Rgb = Rgb(red: bool, green: bool, blue: bool)

  predicate OneHot(led: Rgb)
  {
    (led.red && !led.green && !led.blue) ||
    (!led.red && led.green && !led.blue) ||
    (!led.red && !led.green && led.blue)
  }

  /** LED 1 shows the mode: blue for filter, green for envelope, red for LFO. */
  function ModeLed(mode: int): (led: Rgb)
    ensures 0 <= mode < ModeCount ==> OneHot(led)
    ensures led.blue <==> mode == 0
    ensures led.green <==> mode == 1
    ensures led.red <==> mode == 2
  {
    Rgb(mode == 2, mode == 1, mode == 0)
  }

  /** Distinct modes light LED 1 differently. */
  lemma ModeLedDistinguishes(m1: int, m2: int)
    requires 0 <= m1 < ModeCount && 0 <= m2 < ModeCount && m1 != m2
    ensures ModeLed(m1) != ModeLed(m2)
  {
  }

  /** LED 2 shows the self-cycle toggle in green and blue, red off. */
  function SelfCycleLed(on: bool): (led: Rgb)
    ensures !led.red && led.green == on && led.blue == on
  {
    Rgb(false, on, on)
  }
}
