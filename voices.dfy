/** The four instrument voices of the Blob Orchestra: on which loop steps each
    one fires, which note the melody plays, and what a voice emits when the
    scheduler hands it a step.  The Web Audio graph a voice builds is reduced
    to one opaque `Tone` event per sound. */
module Voices {

  /** The closed set of voices (BassBlob, SnareBlob, MelodyBlob, DroneBlob). */
  datatype VoiceKind = Bass | Snare | Melody | Drone

  /** Whether a voice's `play(time, step)` does anything on `step`. */
  predicate Fires(kind: VoiceKind, step: nat)
  {
    match kind
    case Bass => step % 4 == 0
    case Snare => step % 8 == 4
    case Melody => step % 2 == 0
    case Drone => step % 16 == 0
  }

  /** Reference table: the positions in the 16-step loop where each voice fires. */
  function FiringSteps(kind: VoiceKind): set<nat>
  {
    match kind
    case Bass => {0, 4, 8, 12}
    case Snare => {4, 12}
    case Melody => {0, 2, 4, 6, 8, 10, 12, 14}
    case Drone => {0}
  }

  /** Within one loop the predicates pick out exactly the table's steps. */
  lemma FiresWithinLoop(kind: VoiceKind, step: nat)
    requires step < 16
    ensures Fires(kind, step) <==> step in FiringSteps(kind)
  {
    if step < 8 {
      assert step == 0 || step == 1 || step == 2 || step == 3 || step == 4 || step == 5 || step == 6 || step == 7;
    } else {
      assert step == 8 || step == 9 || step == 10 || step == 11 || step == 12 || step == 13 || step == 14 || step == 15;
    }
  }

  /** `x = 8m + a` with `a < 8` leaves remainder `a` modulo 8. */
  lemma RemainderOfEighths(x: nat, m: nat, a: nat)
    requires x == 8 * m + a && a < 8
    ensures x % 8 == a
  {
  }

  /** `x = 4m + a` with `a < 4` leaves remainder `a` modulo 4. */
  lemma RemainderOfQuarters(x: nat, m: nat, a: nat)
    requires x == 4 * m + a && a < 4
    ensures x % 4 == a
  {
  }

  /** `x = 2m + a` with `a < 2` leaves remainder `a` modulo 2. */
  lemma RemainderOfHalves(x: nat, m: nat, a: nat)
    requires x == 2 * m + a && a < 2
    ensures x % 2 == a
  {
  }

  /** Reducing modulo 16 keeps the remainders modulo 8, 4 and 2. */
  lemma LoopPositionKeepsRemainders(step: nat)
    ensures step % 8 == step % 16 % 8
    ensures step % 4 == step % 16 % 4
    ensures step % 2 == step % 16 % 2
  {
    var q, s := step / 16, step % 16;
    assert step == 16 * q + s;
    RemainderOfEighths(step, 2 * q + s / 8, s % 8);
    RemainderOfQuarters(step, 4 * q + s / 4, s % 4);
    RemainderOfHalves(step, 8 * q + s / 2, s % 2);
  }

  /** Every predicate divides 16, so a voice only depends on the loop position. */
  lemma FiresDependsOnLoopPosition(kind: VoiceKind, step: nat)
    ensures Fires(kind, step) == Fires(kind, step % 16)
    ensures Fires(kind, step) <==> step % 16 in FiringSteps(kind)
  {
    LoopPositionKeepsRemainders(step);
    FiresWithinLoop(kind, step % 16);
  }

  /** One loop later a voice makes the same firing decision. */
  lemma FiresPeriodic(kind: VoiceKind, step: nat)
    ensures Fires(kind, step + 16) == Fires(kind, step)
  {
    FiresDependsOnLoopPosition(kind, step);
    FiresDependsOnLoopPosition(kind, step + 16);
  }

  /** The grid nests: the backbeat and the drone pulse fall on quarter notes,
      and quarter notes fall on the melody's eighth notes. */
  lemma FiringGridNests(step: nat)
    ensures Fires(Snare, step) ==> Fires(Bass, step)
    ensures Fires(Drone, step) ==> Fires(Bass, step)
    ensures Fires(Bass, step) ==> Fires(Melody, step)
    ensures !(Fires(Snare, step) && Fires(Drone, step))
  {
    FiresDependsOnLoopPosition(Bass, step);
    FiresDependsOnLoopPosition(Snare, step);
    FiresDependsOnLoopPosition(Melody, step);
    FiresDependsOnLoopPosition(Drone, step);
  }

  /** Pentatonic scale C4, D4, E4, G4, A4, in hertz. */
  const Scale: seq<real> := [261.63, 293.66, 329.63, 392.00, 440.00]

  /** Scale-degree index played on each of the 16 steps. */
  const Pattern: seq<nat> := [0, 2, 4, 2, 1, 3, 0, 4, 1, 0, 3, 2, 4, 1, 0, 2]

  /** Every pattern entry already indexes the scale. */
  lemma PatternIndexesScale(i: nat)
    requires i < |Pattern|
    ensures |Pattern| == 16 && Pattern[i] < |Scale|
  {
  }

  /** The note the melody plays on `step`: pattern lookup modulo 16, then a
      scale lookup modulo the scale length. */
  function MelodyPitch(step: nat): (f: real)
    ensures f in Scale
    ensures f == Scale[Pattern[step % 16]]
  {
    PatternIndexesScale(step % 16);
    Scale[Pattern[step % 16] % |Scale|]
  }

  /** Step `s + 16` plays the same note as step `s`. */
  lemma MelodyPeriodic(step: nat)
    ensures MelodyPitch(step + 16) == MelodyPitch(step)
  {
    assert (step + 16) % 16 == step % 16;
  }

  /** Starting frequency of the bass sweep (it falls to 40 Hz in 0.1 s). */
  const BassPitch: real := 150.0
  /** Frequency of the snare's triangle "pop". */
  const SnarePitch: real := 200.0
  /** How long each percussive or melodic sound runs before its oscillator stops. */
  const BassLength: real := 0.5
  const SnareLength: real := 0.1
  const MelodyLength: real := 0.2

  /** What a voice does when it fires: `Beat` is the call of its on-beat
      callback, `Tone` the sound it schedules from `time` until `stop`. */
  datatype Effect =
    | Beat(voice: VoiceKind, time: real)
    | Tone(voice: VoiceKind, time: real, stop: real, pitch: real)

  /** `play(time, step)` of each voice: on a firing step the callback comes
      first, then the sound; the drone only calls its callback. */
  function Play(kind: VoiceKind, time: real, step: nat): (out: seq<Effect>)
    ensures out == [] <==> !Fires(kind, step)
    ensures out != [] ==> out[0] == Beat(kind, time)
    ensures forall e :: e in out ==> e.voice == kind && e.time == time
    ensures kind == Drone ==> forall e :: e in out ==> e.Beat?
    ensures kind != Drone && Fires(kind, step) ==> |out| == 2 && out[1].Tone? && out[1].time < out[1].stop
    ensures kind == Melody && Fires(kind, step) ==> out[1].pitch == MelodyPitch(step)
  {
    if !Fires(kind, step) then []
    else
      match kind
      case Bass => [Beat(Bass, time), Tone(Bass, time, time + BassLength, BassPitch)]
      case Snare => [Beat(Snare, time), Tone(Snare, time, time + SnareLength, SnarePitch)]
      case Melody => [Beat(Melody, time), Tone(Melody, time, time + MelodyLength, MelodyPitch(step))]
      case Drone => [Beat(Drone, time)]
  }

  /** The times at which callbacks are invoked, in order. */
  function Beats(effects: seq<Effect>): (times: seq<real>)
    ensures |times| <= |effects|
  {
    if effects == [] then []
    else (if effects[0].Beat? then [effects[0].time] else []) + Beats(effects[1..])
  }

  /** A voice calls its callback exactly once, with the event time, when it
      fires, and not at all otherwise. */
  lemma {:induction false} PlayBeatsOnce(kind: VoiceKind, time: real, step: nat)
    ensures Beats(Play(kind, time, step)) == if Fires(kind, step) then [time] else []
  {
    var out := Play(kind, time, step);
    if Fires(kind, step) {
      assert Beats(out[1..]) == [] by {
        if kind != Drone {
          assert out[1..][1..] == [];
        } else {
          assert out[1..] == [];
        }
      }
    }
  }
}
