/** Tempo arithmetic of the look-ahead scheduler: the length of one sixteenth
    note, the step counter that wraps at 16, and what repeated advancing does
    to both.  Time is an exact `real` number of seconds. */
module Timing {

  /** Number of sixteenth-note steps in one loop. */
  const StepsPerLoop: nat := 16

  /** `nextNote`'s advance: a quarter of a beat of `60 / tempo` seconds. */
  function SixteenthNote(tempo: real): (d: real)
    requires tempo > 0.0
    ensures d > 0.0
  {
    0.25 * (60.0 / tempo)
  }

  /** Four sixteenth notes make one beat of `60 / tempo` seconds. */
  lemma FourSixteenthsMakeABeat(tempo: real)
    requires tempo > 0.0
    ensures 4.0 * SixteenthNote(tempo) == 60.0 / tempo
    ensures SixteenthNote(tempo) * tempo == 15.0
  {
    var beat := 60.0 / tempo;
    assert beat * tempo == 60.0;
  }

  /** At the orchestra's tempo of 120 a step lasts one eighth of a second. */
  lemma SixteenthNoteAt120()
    ensures SixteenthNote(120.0) == 0.125
  {
  }

  /** `nextNote`'s step update: increment, and reset to 0 on reaching 16. */
  function NextStep(step: nat): (r: nat)
    requires step < StepsPerLoop
    ensures r < StepsPerLoop
  {
    if step + 1 == StepsPerLoop then 0 else step + 1
  }

  /** The step update is the successor modulo 16. */
  lemma NextStepIsSuccessor(step: nat)
    requires step < StepsPerLoop
    ensures NextStep(step) == (step + 1) % StepsPerLoop
  {
    RemainderOfSuccessor(step, step, step + 1);
  }

  /** The step counter after `n` advances. */
  function StepAfter(step: nat, n: nat): (r: nat)
    requires step < StepsPerLoop
    ensures r < StepsPerLoop
  {
    if n == 0 then step else NextStep(StepAfter(step, n - 1))
  }

  /** `n` advances move the counter `n` places around the loop. */
  lemma {:induction false} StepAfterIsModular(step: nat, n: nat)
    requires step < StepsPerLoop
    ensures StepAfter(step, n) == (step + n) % StepsPerLoop
  {
    if n > 0 {
      var m := n - 1;
      StepAfterIsModular(step, m);
      RemainderOfSuccessor(step + m, StepAfter(step, m), step + n);
      assert StepAfter(step, n) == NextStep(StepAfter(step, m));
    }
  }

  /** Adding one after or before reducing modulo 16 agrees. */
  lemma RemainderOfSuccessor(x: nat, r: nat, y: nat)
    requires r == x % StepsPerLoop && y == x + 1
    ensures NextStep(r) == y % StepsPerLoop
  {
    var q := x / StepsPerLoop;
    assert x == StepsPerLoop * q + r;
    if r + 1 == StepsPerLoop {
      RemainderUnique(y, q + 1, 0);
    } else {
      RemainderUnique(y, q, r + 1);
    }
  }

  /** Division by 16 has a unique remainder. */
  lemma RemainderUnique(x: nat, q: nat, r: nat)
    requires x == StepsPerLoop * q + r && r < StepsPerLoop
    ensures x % StepsPerLoop == r
  {
  }

  /** After 16 advances the counter is back where it started. */
  lemma StepCycle(step: nat)
    requires step < StepsPerLoop
    ensures StepAfter(step, 16) == step
    ensures forall n :: 0 < n < 16 ==> StepAfter(step, n) != step
  {
    StepAfterIsModular(step, 16);
    forall n | 0 < n < 16 ensures StepAfter(step, n) != step {
      StepAfterIsModular(step, n);
    }
  }

  /** The next-event timestamp after `n` advances from `t`. */
  function TimeAfter(t: real, tempo: real, n: nat): real
    requires tempo > 0.0
  {
    if n == 0 then t else TimeAfter(t, tempo, n - 1) + SixteenthNote(tempo)
  }

  /** `n` advances add exactly `n` sixteenth notes. */
  lemma {:induction false} TimeAfterIsLinear(t: real, tempo: real, n: nat)
    requires tempo > 0.0
    ensures TimeAfter(t, tempo, n) == t + (n as real) * SixteenthNote(tempo)
  {
    if n > 0 {
      TimeAfterIsLinear(t, tempo, n - 1);
    }
  }

  /** The timestamp strictly increases with every advance when tempo > 0. */
  lemma TimeAfterIncreasing(t: real, tempo: real, m: nat, n: nat)
    requires tempo > 0.0
    requires m < n
    ensures TimeAfter(t, tempo, m) < TimeAfter(t, tempo, n)
  {
    TimeAfterIsLinear(t, tempo, m);
    TimeAfterIsLinear(t, tempo, n);
    var d := SixteenthNote(tempo);
    assert (n as real) * d - (m as real) * d == ((n - m) as real) * d;
  }

  /** One loop of 16 advances lasts `240 / tempo` seconds: 2.0 s at tempo 120. */
  lemma LoopDuration(t: real, tempo: real)
    requires tempo > 0.0
    ensures TimeAfter(t, tempo, 16) == t + 240.0 / tempo
    ensures tempo == 120.0 ==> TimeAfter(t, tempo, 16) == t + 2.0
  {
    TimeAfterIsLinear(t, tempo, 16);
    FourSixteenthsMakeABeat(tempo);
    var d := SixteenthNote(tempo);
    assert d == 15.0 / tempo;
  }
}
