/** The 16-step gate sequencer: the step table, its cursor, and the edit a
    sequencer controller message makes to one step. */
module Sequencer {
  import opened Midi
  import opened VoicePool

  const StepCount := 16

  /** Controllers 102..117 edit steps 0..15. */
  const FirstEditControl := 102
  const LastEditControl := 117

  /** The decay time an edited step gets. */
  const EditDecay: real := 0.2

  /** One step: the pitch it plays, whether it fires, and its decay time. */
  datatype SeqStep = SeqStep(note: Byte, active: bool, decay: real)

  /** Every step as the firmware initialises it. */
  const InitialStep := SeqStep(110, false, 0.1)

  /** One clock tick: the uint8 cursor is incremented (wrapping at 256) and
      then reduced modulo 16. The 8-bit wrap never shows: the result is the
      cursor plus one, modulo 16, for every byte. */
  function NextCursor(c: Byte): (r: Byte)
    ensures r < StepCount
    ensures r == (c + 1) % StepCount
    ensures c < StepCount - 1 ==> r == c + 1
    ensures c == StepCount - 1 ==> r == 0
  {
    ((c + 1) % 256) % StepCount
  }

  /** The cursor after `n` ticks. */
  function Advance(c: Byte, n: nat): Byte
  {
    if n == 0 then c else NextCursor(Advance(c, n - 1))
  }

  /** From a cursor in range, `n` ticks move it `n` places modulo 16. */
  lemma {:induction false} AdvanceIsModular(c: Byte, n: nat)
    requires c < StepCount
    ensures Advance(c, n) == (c + n) % StepCount
  {
    if n > 0 {
      AdvanceIsModular(c, n - 1);
      var q, p := (c + n - 1) / StepCount, (c + n - 1) % StepCount;
      assert c + n - 1 == q * StepCount + p;
      assert Advance(c, n) == NextCursor(p);
      if p < StepCount - 1 {
        assert NextCursor(p) == p + 1;
        ModOfDecomposition(c + n, q, p + 1);
      } else {
        assert NextCursor(p) == 0;
        ModOfDecomposition(c + n, q + 1, 0);
      }
    }
  }

  /** The cursor has period 16: after 16 more ticks it is where it was. */
  lemma CursorPeriod(c: Byte, n: nat)
    requires c < StepCount
    ensures Advance(c, n + StepCount) == Advance(c, n)
  {
    AdvanceIsModular(c, n);
    AdvanceIsModular(c, n + StepCount);
    var q, p := (c + n) / StepCount, (c + n) % StepCount;
    ModOfDecomposition(c + n + StepCount, q + 1, p);
  }

  /** A number written as a multiple of 16 plus a remainder below 16 has that remainder. */
  lemma ModOfDecomposition(x: int, q: int, p: int)
    requires x == q * StepCount + p && 0 <= p < StepCount
    ensures x % StepCount == p
  {
  }

  /** Within 16 ticks the cursor reaches every step. */
  lemma CursorReaches(c: Byte, t: Byte)
    requires c < StepCount && t < StepCount
    ensures exists n :: 0 <= n < StepCount && Advance(c, n) == t
  {
    var n := if c <= t then t - c else t + StepCount - c;
    AdvanceIsModular(c, n);
    assert Advance(c, n) == t;
  }

  /** What a sequencer controller with a nonzero value does to its step:
      an empty pool deactivates the step; otherwise, when the scan of the
      pool finds a held note (nonzero), the step fires that note with the
      edit decay; otherwise the step is left as it is. */
  function EditStep(s: SeqStep, pool: Pool): SeqStep
  {
    if pool == map[] then s.(active := false)
    else if HeldNote(pool) > 0 then SeqStep(HeldNote(pool), true, EditDecay)
    else s
  }

  /** The edit in terms of the pool's contents: empty pool, highest held
      note, or no held voice with a nonzero note. */
  lemma EditStepCases(s: SeqStep, pool: Pool)
    requires forall k :: k in pool ==> pool[k].note == k
    ensures pool == map[] ==> EditStep(s, pool) == s.(active := false)
    ensures forall k :: (k in pool && k > 0 && pool[k].isPlaying &&
                         (forall j :: j in pool && j > k ==> !pool[j].isPlaying)) ==>
                        EditStep(s, pool) == SeqStep(k, true, EditDecay)
    ensures pool != map[] && (forall k :: k in pool && k > 0 ==> !pool[k].isPlaying) ==>
              EditStep(s, pool) == s
  {
    forall k | k in pool && k > 0 && pool[k].isPlaying &&
               (forall j :: j in pool && j > k ==> !pool[j].isPlaying)
      ensures EditStep(s, pool) == SeqStep(k, true, EditDecay)
    {
      LastHeldIsHighest(pool, 256, k);
    }
  }

  /** The step table after a control-change message: only a sequencer
      controller with a nonzero value changes anything, and then only the
      step it names. */
  function EditedSteps(steps: seq<SeqStep>, pool: Pool, control: Byte, value: Byte): (r: seq<SeqStep>)
    requires |steps| == StepCount
    ensures |r| == StepCount
    ensures forall i :: 0 <= i < StepCount && i != control - FirstEditControl ==> r[i] == steps[i]
    ensures (control < FirstEditControl || LastEditControl < control || value == 0) ==> r == steps
    ensures FirstEditControl <= control <= LastEditControl && value > 0 ==>
              r[control - FirstEditControl] == EditStep(steps[control - FirstEditControl], pool)
  {
    if FirstEditControl <= control <= LastEditControl && value > 0 then
      steps[control - FirstEditControl := EditStep(steps[control - FirstEditControl], pool)]
    else steps
  }
}
