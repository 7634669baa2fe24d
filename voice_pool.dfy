/** The polyphonic voice pool: a map from MIDI note to the voice sounding it.
    The oscillator and the envelope of a voice are library objects; the model
    keeps the settings the firmware writes into them and takes their per-sample
    outputs as inputs. */
module VoicePool {
  import opened Midi

  /** A released voice is removed once its envelope output falls below this level. */
  const SilenceThreshold: real := 0.0005

  /** The envelope settings a voice captures when it is created. */
  datatype EnvSettings = EnvSettings(attack: real, decay: real, release: real, sustainLevel: real)

  /** One voice. `waveform` is the shape last set on its oscillator. */
  datatype Voice = Voice(note: Byte, velocity: Byte, gain: real, isPlaying: bool,
                         waveform: int, env: EnvSettings)

  type Pool = map<Byte, Voice>

  /** Peak gain derived from the velocity byte. */
  function Gain(velocity: Byte): real
  {
    velocity as real / 127.0
  }

  /** The voice a Note-On builds: oscillator waveform from the current
      encoder selection, envelope times from the current parameters, and a
      sustain level scaled by the voice's gain. */
  function FreshVoice(note: Byte, velocity: Byte, wave: int,
                      attack: real, decay: real, release: real, sustain: real): Voice
  {
    Voice(note, velocity, Gain(velocity), true, wave,
          EnvSettings(attack, decay, release, Gain(velocity) * sustain))
  }

  /** The pool's invariant: each entry is keyed by its own note, was
      created by a Note-On with nonzero velocity, and its oscillator plays
      the currently selected waveform. */
  ghost predicate WellFormed(pool: Pool, wave: int)
  {
    forall k :: k in pool ==>
      pool[k].note == k && pool[k].velocity > 0 && pool[k].waveform == wave &&
      pool[k].gain == Gain(pool[k].velocity)
  }

  /** Note-On with nonzero velocity: any voice for the note is discarded and
      the fresh voice takes its place. */
  function StartVoice(pool: Pool, v: Voice): (r: Pool)
    ensures v.note in r && r[v.note] == v
    ensures r.Keys == pool.Keys + {v.note}
    ensures forall k :: k in pool && k != v.note ==> r[k] == pool[k]
  {
    (pool - {v.note})[v.note := v]
  }

  /** Note-Off: the voice for the note, if any, stops playing but stays in
      the pool so that its release can be heard. */
  function ReleaseNote(pool: Pool, note: Byte): (r: Pool)
    ensures r.Keys == pool.Keys
    ensures note in pool ==> r[note] == pool[note].(isPlaying := false)
    ensures forall k :: k in pool && k != note ==> r[k] == pool[k]
  {
    if note in pool then pool[note := pool[note].(isPlaying := false)] else pool
  }

  /** A voice is spent when its key is released and its envelope output
      (`level`) has fallen below the silence threshold. */
  predicate Spent(v: Voice, level: real)
  {
    !v.isPlaying && level < SilenceThreshold
  }

  /** The notes whose voices are spent, given each voice's envelope output. */
  function SpentKeys(pool: Pool, level: Byte -> real): set<Byte>
  {
    set k | k in pool && Spent(pool[k], level(k))
  }

  /** The pool after the render pass has removed the spent voices. */
  function Reap(pool: Pool, level: Byte -> real): (r: Pool)
    ensures forall k :: k in r <==> k in pool && !Spent(pool[k], level(k))
    ensures forall k :: k in r ==> r[k] == pool[k]
  {
    pool - SpentKeys(pool, level)
  }

  /** A voice whose key is held is never reaped. */
  lemma PlayingVoiceSurvives(pool: Pool, level: Byte -> real, k: Byte)
    requires k in pool && pool[k].isPlaying
    ensures k in Reap(pool, level) && Reap(pool, level)[k] == pool[k]
  {
  }

  /** Reaping never adds entries: the number of voices does not grow. */
  lemma ReapShrinks(pool: Pool, level: Byte -> real)
    ensures Reap(pool, level).Keys <= pool.Keys
    ensures |Reap(pool, level)| <= |pool|
  {
    var r := Reap(pool, level);
    assert r.Keys <= pool.Keys;
    SubsetCardinality(r.Keys, pool.Keys);
    assert |r| == |r.Keys|;
  }

  lemma {:induction false} SubsetCardinality(a: set<Byte>, b: set<Byte>)
    requires a <= b
    ensures |a| <= |b|
    decreases |b|
  {
    if a != {} {
      var x :| x in a;
      SubsetCardinality(a - {x}, b - {x});
    }
  }

  /** When every voice is released and silent, one render pass empties the pool. */
  lemma AllSpentEmpties(pool: Pool, level: Byte -> real)
    requires forall k :: k in pool ==> Spent(pool[k], level(k))
    ensures Reap(pool, level) == map[]
  {
    assert Reap(pool, level).Keys == {};
  }

  /** Reaping keeps the pool's invariant. */
  lemma ReapKeepsWellFormed(pool: Pool, level: Byte -> real, wave: int)
    requires WellFormed(pool, wave)
    ensures WellFormed(Reap(pool, level), wave)
  {
  }

  /** A note's life: after a press and a release the voice is still in the
      pool, not playing; the first render pass that finds its envelope
      silent removes it, and leaves every other note's voice as the press
      found it unless that voice is spent too. */
  lemma NoteLifecycle(pool: Pool, v: Voice, level: Byte -> real)
    requires level(v.note) < SilenceThreshold
    ensures var released := ReleaseNote(StartVoice(pool, v), v.note);
            v.note in released && released[v.note] == v.(isPlaying := false) &&
            v.note !in Reap(released, level) &&
            forall k :: k in pool && k != v.note && !Spent(pool[k], level(k)) ==>
              k in Reap(released, level) && Reap(released, level)[k] == pool[k]
  {
  }

  /** The pool with every oscillator switched to waveform `w`. */
  function WithWaveform(pool: Pool, w: int): (r: Pool)
    ensures r.Keys == pool.Keys
    ensures forall k :: k in r ==> r[k] == pool[k].(waveform := w)
  {
    map k | k in pool :: pool[k].(waveform := w)
  }

  /** The sum of the voices' samples over the notes below `n`, in the
      pool's ascending key order. `out` gives each voice's sample
      (envelope output times oscillator output). */
  function Mix(pool: Pool, out: Byte -> real, n: nat): real
    requires n <= 256
  {
    if n == 0 then 0.0
    else Mix(pool, out, n - 1) + (if n - 1 in pool then out(n - 1) else 0.0)
  }

  /** An empty pool contributes nothing to the output. */
  lemma {:induction false} MixOfEmptyPool(out: Byte -> real, n: nat)
    requires n <= 256
    ensures Mix(map[], out, n) == 0.0
  {
    if n > 0 {
      MixOfEmptyPool(out, n - 1);
    }
  }

  /** Note-Off does not silence a voice: the released voice keeps being
      mixed, sample for sample, until a render pass reaps it. */
  lemma {:induction false} ReleaseKeepsMix(pool: Pool, out: Byte -> real, note: Byte, n: nat)
    requires n <= 256
    ensures Mix(ReleaseNote(pool, note), out, n) == Mix(pool, out, n)
  {
    if n > 0 {
      ReleaseKeepsMix(pool, out, note, n - 1);
    }
  }

  /** The render pass over the voice pool: sums every voice's sample, then
      marks the voices that are spent afterwards. Entries are visited in
      ascending note order, as std::map iterates, and the pool is not
      changed while it is walked; the caller removes the marked entries. */
  method MixAndMark(pool: Pool, out: Byte -> real, level: Byte -> real)
    returns (sum: real, spent: set<Byte>)
    ensures sum == Mix(pool, out, 256)
    ensures spent == SpentKeys(pool, level)
  {
    sum, spent := 0.0, {};
    var k: nat := 0;
    while k < 256
      invariant 0 <= k <= 256
      invariant sum == Mix(pool, out, k)
      invariant spent == set j | j in pool && j < k && Spent(pool[j], level(j))
    {
      if k in pool {
        sum := sum + out(k);
        if Spent(pool[k], level(k)) {
          spent := spent + {k};
        }
      }
      k := k + 1;
    }
  }

  /** The note of the highest-keyed playing voice below `n`, or 0 when there
      is none: what a forward scan that keeps overwriting its result with
      each playing voice's note ends with. */
  function LastHeld(pool: Pool, n: nat): (r: Byte)
    requires n <= 256
    ensures r == 0 || exists k :: k in pool && k < n && pool[k].isPlaying && pool[k].note == r
  {
    if n == 0 then 0
    else if n - 1 in pool && pool[n - 1].isPlaying then pool[n - 1].note
    else LastHeld(pool, n - 1)
  }

  /** The note the sequencer edit takes from the pool. */
  function HeldNote(pool: Pool): Byte
  {
    LastHeld(pool, 256)
  }

  /** The scan picks the note of the highest-keyed playing voice. */
  lemma {:induction false} LastHeldIsHighest(pool: Pool, n: nat, k: Byte)
    requires n <= 256
    requires k in pool && k < n && pool[k].isPlaying
    requires forall j :: j in pool && k < j < n ==> !pool[j].isPlaying
    ensures LastHeld(pool, n) == pool[k].note
    decreases n
  {
    if n - 1 != k {
      LastHeldIsHighest(pool, n - 1, k);
    }
  }

  /** With no voice playing below `n`, the scan yields 0. */
  lemma {:induction false} LastHeldNone(pool: Pool, n: nat)
    requires n <= 256
    requires forall j :: j in pool && j < n ==> !pool[j].isPlaying
    ensures LastHeld(pool, n) == 0
    decreases n
  {
    if n > 0 {
      LastHeldNone(pool, n - 1);
    }
  }

  /** The scan of the sequencer edit: walks the pool in ascending note order
      and keeps the note of the last voice whose key is held (0 if none). */
  method ScanHeldNote(pool: Pool) returns (currNotes: Byte)
    ensures currNotes == HeldNote(pool)
    ensures currNotes == 0 || exists k :: k in pool && pool[k].isPlaying && pool[k].note == currNotes
  {
    currNotes := 0;
    var k: nat := 0;
    while k < 256
      invariant 0 <= k <= 256
      invariant currNotes == LastHeld(pool, k)
    {
      if k in pool && pool[k].isPlaying {
        currNotes := pool[k].note;
      }
      k := k + 1;
    }
  }
}
