/** BlobOrchestra: the look-ahead scheduler that turns the audio clock into
    numbered sixteenth-note events and hands each to the active, non-drone
    voices, plus the start-up and voice-toggle guards and the visual-sync
    delay.  The audio clock is read through the `currentTime` parameter. */
module Orchestra {
  import opened Voices
  import opened Timing
  import opened Blobs

  /** The voices `initAudio` creates, in the order of their on-screen blobs. */
  const Roster: seq<VoiceKind> := [Bass, Snare, Melody, Drone]

  /** One `scheduleNote(step, time)` invocation. */
  datatype Note = Note(step: nat, time: real)

  /** One `blob.play(time, step)` invocation. */
  datatype Call = Call(voice: VoiceKind, step: nat, time: real)

  /** What the scheduler sees of a voice. */
  datatype VoiceState = VoiceState(kind: VoiceKind, active: bool)

  /** The calls `scheduleNote(step, time)` makes, voice by voice in order:
      one per active voice that is not the drone. */
  function Dispatch(voices: seq<VoiceState>, step: nat, time: real): (calls: seq<Call>)
  {
    if voices == [] then []
    else
      var last := voices[|voices| - 1];
      Dispatch(voices[..|voices| - 1], step, time)
        + (if last.active && last.kind != Drone then [Call(last.kind, step, time)] else [])
  }

  /** A voice is called on a step exactly when it is active and not the drone. */
  lemma {:induction false} DispatchReachesActiveVoices(voices: seq<VoiceState>, step: nat, time: real, kind: VoiceKind)
    ensures Call(kind, step, time) in Dispatch(voices, step, time)
        <==> kind != Drone && VoiceState(kind, true) in voices
  {
    if voices != [] {
      var init := voices[..|voices| - 1];
      DispatchReachesActiveVoices(init, step, time, kind);
      assert voices == init + [voices[|voices| - 1]];
    }
  }

  /** Every call of a note is for that note and for an active voice other
      than the drone; there is at most one per voice. */
  lemma {:induction false} DispatchCallsActiveVoices(voices: seq<VoiceState>, step: nat, time: real)
    ensures |Dispatch(voices, step, time)| <= |voices|
    ensures forall c :: c in Dispatch(voices, step, time) ==>
      c.step == step && c.time == time && c.voice != Drone && VoiceState(c.voice, true) in voices
  {
    if voices != [] {
      var init := voices[..|voices| - 1];
      DispatchCallsActiveVoices(init, step, time);
      assert voices == init + [voices[|voices| - 1]];
    }
  }

  /** The calls made for a sequence of notes, note by note. */
  function DispatchAll(voices: seq<VoiceState>, notes: seq<Note>): (calls: seq<Call>)
  {
    if notes == [] then []
    else
      var last := notes[|notes| - 1];
      DispatchAll(voices, notes[..|notes| - 1]) + Dispatch(voices, last.step, last.time)
  }

  /** Over a whole pass, voice `kind` is called for note `n` exactly when `n`
      was dispatched and `kind` is active and not the drone. */
  lemma {:induction false} DispatchAllReaches(voices: seq<VoiceState>, notes: seq<Note>, kind: VoiceKind, n: Note)
    ensures Call(kind, n.step, n.time) in DispatchAll(voices, notes)
        <==> n in notes && kind != Drone && VoiceState(kind, true) in voices
  {
    if notes != [] {
      var init, last := notes[..|notes| - 1], notes[|notes| - 1];
      DispatchAllReaches(voices, init, kind, n);
      DispatchReachesActiveVoices(voices, last.step, last.time, kind);
      DispatchCallsActiveVoices(voices, last.step, last.time);
      assert notes == init + [last];
    }
  }

  /** Every call of a pass is for a dispatched note and an active voice other
      than the drone. */
  lemma {:induction false} DispatchAllCallsActiveVoices(voices: seq<VoiceState>, notes: seq<Note>)
    ensures forall c :: c in DispatchAll(voices, notes) ==>
      c.voice != Drone && VoiceState(c.voice, true) in voices && Note(c.step, c.time) in notes
  {
    forall c | c in DispatchAll(voices, notes)
      ensures c.voice != Drone && VoiceState(c.voice, true) in voices && Note(c.step, c.time) in notes
    {
      DispatchAllReaches(voices, notes, c.voice, Note(c.step, c.time));
    }
  }

  /** A note for voices that are all inactive calls nobody. */
  lemma {:induction false} DispatchToSilentVoices(voices: seq<VoiceState>, step: nat, time: real)
    requires forall i :: 0 <= i < |voices| ==> !voices[i].active
    ensures Dispatch(voices, step, time) == []
  {
    if voices != [] {
      DispatchToSilentVoices(voices[..|voices| - 1], step, time);
    }
  }

  /** With every voice inactive the scheduler calls no voice at all. */
  lemma {:induction false} SilentVoicesGetNoCalls(voices: seq<VoiceState>, notes: seq<Note>)
    requires forall i :: 0 <= i < |voices| ==> !voices[i].active
    ensures DispatchAll(voices, notes) == []
  {
    if notes != [] {
      SilentVoicesGetNoCalls(voices, notes[..|notes| - 1]);
      var last := notes[|notes| - 1];
      DispatchToSilentVoices(voices, last.step, last.time);
    }
  }

  /** Appending a note appends its calls. */
  lemma DispatchAllAppend(voices: seq<VoiceState>, notes: seq<Note>, n: Note)
    ensures DispatchAll(voices, notes + [n]) == DispatchAll(voices, notes) + Dispatch(voices, n.step, n.time)
  {
    assert (notes + [n])[..|notes|] == notes;
  }

  /** Everything the called voices emit, call by call. */
  function Emitted(calls: seq<Call>): seq<Effect>
  {
    if calls == [] then []
    else Play(calls[0].voice, calls[0].time, calls[0].step) + Emitted(calls[1..])
  }

  /** Only called voices emit anything, and only at the time of their call. */
  lemma {:induction false} EmittedByCalledVoices(calls: seq<Call>, e: Effect)
    requires e in Emitted(calls)
    ensures exists c :: c in calls && c.voice == e.voice && c.time == e.time
  {
    var head := Play(calls[0].voice, calls[0].time, calls[0].step);
    if e in head {
      assert calls[0] in calls;
    } else {
      assert e in Emitted(calls[1..]);
      EmittedByCalledVoices(calls[1..], e);
      var c :| c in calls[1..] && c.voice == e.voice && c.time == e.time;
      assert c in calls;
    }
  }

  /** The drone's `play`, and with it its once-per-loop visual pulse, is never
      reached from the scheduler: nothing the scheduler triggers is the drone's. */
  lemma DroneNeverPulses(voices: seq<VoiceState>, notes: seq<Note>, e: Effect)
    requires e in Emitted(DispatchAll(voices, notes))
    ensures e.voice != Drone
  {
    EmittedByCalledVoices(DispatchAll(voices, notes), e);
    DispatchAllCallsActiveVoices(voices, notes);
  }

  /** The first `n` slots of the loop from step `step0` at time `t0`: slot
      `j` is `j` advances on. */
  ghost function Slots(step0: nat, t0: real, tempo: real, n: nat): (notes: seq<Note>)
    requires step0 < StepsPerLoop && tempo > 0.0
    ensures |notes| == n
  {
    if n == 0 then []
    else Slots(step0, t0, tempo, n - 1) + [Note(StepAfter(step0, n - 1), TimeAfter(t0, tempo, n - 1))]
  }

  /** Slot `j` is `j` advances on from the start. */
  lemma {:induction false} SlotAt(step0: nat, t0: real, tempo: real, n: nat, j: nat)
    requires step0 < StepsPerLoop && tempo > 0.0 && j < n
    ensures Slots(step0, t0, tempo, n)[j] == Note(StepAfter(step0, j), TimeAfter(t0, tempo, j))
  {
    if j < n - 1 {
      SlotAt(step0, t0, tempo, n - 1, j);
    }
  }

  /** The notes one scheduler pass dispatches, starting from step `step0` at
      time `t0`: the leading slots, the last of them due before `limit`, and
      the slot after it not due. */
  ghost predicate IsWindow(notes: seq<Note>, step0: nat, t0: real, tempo: real, limit: real)
  {
    && step0 < StepsPerLoop && tempo > 0.0
    && notes == Slots(step0, t0, tempo, |notes|)
    && (|notes| > 0 ==> TimeAfter(t0, tempo, |notes| - 1) < limit)
    && TimeAfter(t0, tempo, |notes|) >= limit
  }

  /** Note `j` of a window is `j` advances on from the start and due. */
  lemma WindowNotes(notes: seq<Note>, step0: nat, t0: real, tempo: real, limit: real)
    requires IsWindow(notes, step0, t0, tempo, limit)
    ensures forall j :: 0 <= j < |notes| ==>
      notes[j] == Note(StepAfter(step0, j), TimeAfter(t0, tempo, j)) && notes[j].time < limit
  {
    forall j | 0 <= j < |notes|
      ensures notes[j] == Note(StepAfter(step0, j), TimeAfter(t0, tempo, j)) && notes[j].time < limit
    {
      SlotAt(step0, t0, tempo, |notes|, j);
      if j < |notes| - 1 {
        TimeAfterIncreasing(t0, tempo, j, |notes| - 1);
      }
    }
  }

  /** In closed form: note `j` is at loop position `step0 + j` and `j`
      sixteenth notes after `t0`. */
  lemma WindowClosedForm(notes: seq<Note>, step0: nat, t0: real, tempo: real, limit: real)
    requires IsWindow(notes, step0, t0, tempo, limit)
    ensures forall j :: 0 <= j < |notes| ==>
      notes[j] == Note((step0 + j) % StepsPerLoop, t0 + (j as real) * SixteenthNote(tempo))
  {
    WindowNotes(notes, step0, t0, tempo, limit);
    forall j | 0 <= j < |notes|
      ensures notes[j] == Note((step0 + j) % StepsPerLoop, t0 + (j as real) * SixteenthNote(tempo))
    {
      StepAfterIsModular(step0, j);
      TimeAfterIsLinear(t0, tempo, j);
    }
  }

  /** Consecutive notes of a window are one sixteenth note and one loop
      position apart. */
  lemma WindowIsConsecutive(notes: seq<Note>, step0: nat, t0: real, tempo: real, limit: real)
    requires IsWindow(notes, step0, t0, tempo, limit)
    ensures forall i :: 0 <= i < |notes| - 1 ==>
      notes[i + 1].time == notes[i].time + SixteenthNote(tempo)
      && notes[i].step < StepsPerLoop && notes[i + 1].step == NextStep(notes[i].step)
  {
    WindowNotes(notes, step0, t0, tempo, limit);
    forall i | 0 <= i < |notes| - 1
      ensures notes[i + 1].time == notes[i].time + SixteenthNote(tempo)
      ensures notes[i].step < StepsPerLoop && notes[i + 1].step == NextStep(notes[i].step)
    {
      assert notes[i] == Note(StepAfter(step0, i), TimeAfter(t0, tempo, i));
    }
  }

  /** Later notes of a window have strictly later times, all in `[t0, limit)`. */
  lemma WindowIsIncreasing(notes: seq<Note>, step0: nat, t0: real, tempo: real, limit: real)
    requires IsWindow(notes, step0, t0, tempo, limit)
    ensures forall i, j :: 0 <= i < j < |notes| ==> notes[i].time < notes[j].time
    ensures forall j :: 0 <= j < |notes| ==> t0 <= notes[j].time < limit
  {
    WindowNotes(notes, step0, t0, tempo, limit);
    forall i, j | 0 <= i < j < |notes| ensures notes[i].time < notes[j].time {
      TimeAfterIncreasing(t0, tempo, i, j);
    }
    forall j | 0 < j < |notes| ensures t0 <= notes[j].time {
      TimeAfterIncreasing(t0, tempo, 0, j);
    }
  }

  /** Slot `n` after the start belongs to the window exactly when it is due
      before the limit. */
  lemma WindowHoldsExactlyTheDueSlots(notes: seq<Note>, step0: nat, t0: real, tempo: real, limit: real, n: nat)
    requires IsWindow(notes, step0, t0, tempo, limit)
    ensures n < |notes| <==> TimeAfter(t0, tempo, n) < limit
  {
    WindowNotes(notes, step0, t0, tempo, limit);
    if n < |notes| {
      assert notes[n].time < limit;
    } else if n > |notes| {
      TimeAfterIncreasing(t0, tempo, |notes|, n);
    }
  }

  /** A window is determined by its start and its limit: a pass dispatches
      every due note and no later one. */
  lemma WindowIsUnique(a: seq<Note>, b: seq<Note>, step0: nat, t0: real, tempo: real, limit: real)
    requires IsWindow(a, step0, t0, tempo, limit) && IsWindow(b, step0, t0, tempo, limit)
    ensures a == b
  {
    WindowHoldsExactlyTheDueSlots(a, step0, t0, tempo, limit, |a|);
    WindowHoldsExactlyTheDueSlots(a, step0, t0, tempo, limit, |b|);
    WindowHoldsExactlyTheDueSlots(b, step0, t0, tempo, limit, |a|);
    WindowHoldsExactlyTheDueSlots(b, step0, t0, tempo, limit, |b|);
  }

  /** The state of a pass after dispatching `notes`: the clock `now` and the
      step counter `step` are `|notes|` advances on, and every note was due. */
  ghost predicate PassProgress(notes: seq<Note>, step0: nat, t0: real, tempo: real, limit: real, now: real, step: nat,
                               voices: seq<VoiceState>, calls: seq<Call>)
  {
    && calls == DispatchAll(voices, notes)
    && step0 < StepsPerLoop && tempo > 0.0
    && notes == Slots(step0, t0, tempo, |notes|)
    && (|notes| > 0 ==> TimeAfter(t0, tempo, |notes| - 1) < limit)
    && now == TimeAfter(t0, tempo, |notes|)
    && step == StepAfter(step0, |notes|)
  }

  /** Dispatching the due slot at `now` and advancing keeps the pass on track. */
  lemma PassAdvances(notes: seq<Note>, step0: nat, t0: real, tempo: real, limit: real, now: real, step: nat,
                     voices: seq<VoiceState>, calls: seq<Call>, dispatched: seq<Call>, bound: nat)
    requires PassProgress(notes, step0, t0, tempo, limit, now, step, voices, calls) && now < limit
    requires dispatched == Dispatch(voices, step, now)
    requires TimeAfter(t0, tempo, bound) >= limit
    ensures step < StepsPerLoop && |notes| < bound
    ensures PassProgress(notes + [Note(step, now)], step0, t0, tempo, limit, now + SixteenthNote(tempo), NextStep(step),
                         voices, calls + dispatched)
  {
    DispatchAllAppend(voices, notes, Note(step, now));
    if bound <= |notes| {
      if bound < |notes| {
        TimeAfterIncreasing(t0, tempo, bound, |notes|);
      }
      assert false;
    }
  }

  /** A pass that has run out of due slots has dispatched a whole window. */
  lemma PassEnds(notes: seq<Note>, step0: nat, t0: real, tempo: real, limit: real, now: real, step: nat,
                 voices: seq<VoiceState>, calls: seq<Call>)
    requires PassProgress(notes, step0, t0, tempo, limit, now, step, voices, calls) && now >= limit
    ensures IsWindow(notes, step0, t0, tempo, limit)
  {
  }

  /** A number of advances from `t0` after which the clock has reached `limit`. */
  lemma StepsToReach(t0: real, tempo: real, limit: real) returns (n: nat)
    requires tempo > 0.0
    ensures TimeAfter(t0, tempo, n) >= limit
  {
    var d := SixteenthNote(tempo);
    if limit <= t0 {
      n := 0;
    } else {
      var x := (limit - t0) / d;
      n := x.Floor + 1;
      assert (n as real) > x;
      assert x * d == limit - t0;
      assert (n as real) * d > x * d;
    }
    TimeAfterIsLinear(t0, tempo, n);
  }

  /** `onBeat`'s delay, in milliseconds, before the visual trigger of a sound
      that starts at audio time `time` when the clock reads `now`. */
  function VisualDelay(time: real, now: real): (ms: real)
    ensures ms >= 0.0
    ensures now + ms / 1000.0 == if time >= now then time else now
    ensures time == now ==> ms == 0.0
  {
    var raw := (time - now) * 1000.0;
    if raw > 0.0 then raw else 0.0
  }

  /** The kind and active flag of each of `bs`, in order. */
  function StatesOf(bs: seq<Blob>): (vs: seq<VoiceState>)
    reads bs
    ensures |vs| == |bs|
    ensures forall i :: 0 <= i < |bs| ==> vs[i] == VoiceState(bs[i].kind, bs[i].active)
  {
    if bs == [] then [] else StatesOf(bs[..|bs| - 1]) + [VoiceState(bs[|bs| - 1].kind, bs[|bs| - 1].active)]
  }

  /** The four instruments `initAudio` creates, one per roster entry, all
      inactive, without a sound graph, not stopping and with no timer armed. */
  method NewVoices() returns (bs: seq<Blob>)
    ensures |bs| == |Roster|
    ensures forall i :: 0 <= i < |bs| ==>
      fresh(bs[i]) && bs[i].kind == Roster[i] && bs[i].Valid() && !bs[i].active && !bs[i].osc
      && !bs[i].isStopping && bs[i].pendingCleanups == 0 && bs[i].fadeTarget == 0.0
  {
    var bass := new Blob(Bass);
    var snare := new Blob(Snare);
    var melody := new Blob(Melody);
    var drone := new Blob(Drone);
    bs := [bass, snare, melody, drone];
  }

  class BlobOrchestra {
    /** Whether `audioCtx` has been created. */
    var audioReady: bool
    var isPlaying: bool
    var blobs: seq<Blob>
    const tempo: real := 120.0
    /** Milliseconds between scheduler passes. It only records the source's
        timer delay: the timer itself is the flag `timerArmed`. */
    const lookahead: real := 25.0
    /** Seconds of audio the scheduler queues ahead of the clock. */
    const scheduleAheadTime: real := 0.1
    var nextNoteTime: real
    var current16thNote: nat
    /** Whether the next scheduler pass has been armed on a timer. */
    var timerArmed: bool

    ghost predicate Valid()
      reads this, blobs
    {
      && current16thNote < StepsPerLoop
      && VoicesValid()
      && (!audioReady ==>
            blobs == [] && !isPlaying && !timerArmed && nextNoteTime == 0.0 && current16thNote == 0)
    }

    /** Once audio is initialised the voices are the roster, in order. */
    ghost predicate VoicesValid()
      reads this`audioReady, this`blobs, blobs
    {
      audioReady ==>
        |blobs| == |Roster|
        && forall i :: 0 <= i < |blobs| ==> blobs[i].kind == Roster[i] && blobs[i].Valid()
    }

    /** The kind and active flag of each voice, in order. */
    function Voices(): (vs: seq<VoiceState>)
      reads this`blobs, blobs
    {
      StatesOf(blobs)
    }

    /** Before `initAudio` there is no audio context and no voice. */
    constructor ()
      ensures Valid()
      ensures !audioReady && !isPlaying && blobs == [] && !timerArmed
      ensures nextNoteTime == 0.0 && current16thNote == 0
    {
      audioReady := false;
      isPlaying := false;
      blobs := [];
      nextNoteTime := 0.0;
      current16thNote := 0;
      timerArmed := false;
    }

    /** `nextNote`: advance the timestamp by one sixteenth note and the step
        counter by one place around the loop; nothing else changes. */
    method NextNote()
      requires current16thNote < StepsPerLoop
      modifies this`nextNoteTime, this`current16thNote
      ensures nextNoteTime == old(nextNoteTime) + SixteenthNote(tempo)
      ensures current16thNote == NextStep(old(current16thNote))
    {
      var secondsPerBeat := 60.0 / tempo;
      nextNoteTime := nextNoteTime + 0.25 * secondsPerBeat;
      current16thNote := current16thNote + 1;
      if current16thNote == 16 {
        current16thNote := 0;
      }
    }

    /** `scheduleNote`: walk the voices and call `play` on each active voice
        that is not the drone.  It changes no state, so `old(Voices())` are
        the voices it walked. */
    method ScheduleNote(beatNumber: nat, time: real) returns (calls: seq<Call>)
      ensures calls == Dispatch(old(Voices()), beatNumber, time)
    {
      calls := [];
      for i := 0 to |blobs|
        invariant calls == Dispatch(Voices()[..i], beatNumber, time)
      {
        assert Voices()[..i + 1][..i] == Voices()[..i];
        var blob := blobs[i];
        if blob.active && blob.kind != Drone {
          calls := calls + [Call(blob.kind, beatNumber, time)];
        }
      }
      assert Voices()[..|blobs|] == Voices();
    }

    /** One `scheduler` pass at audio time `currentTime`: dispatch every note
        due before `currentTime + scheduleAheadTime`, then re-arm the timer. */
    method Scheduler(currentTime: real) returns (notes: seq<Note>, calls: seq<Call>)
      requires Valid() && audioReady
      modifies this`nextNoteTime, this`current16thNote, this`timerArmed
      ensures Valid() && timerArmed
      ensures IsWindow(notes, old(current16thNote), old(nextNoteTime), tempo, currentTime + scheduleAheadTime)
      ensures nextNoteTime == TimeAfter(old(nextNoteTime), tempo, |notes|)
      ensures current16thNote == StepAfter(old(current16thNote), |notes|)
      ensures nextNoteTime >= currentTime + scheduleAheadTime
      ensures calls == DispatchAll(Voices(), notes)
    {
      var limit := currentTime + scheduleAheadTime;
      ghost var step0, t0, voices := current16thNote, nextNoteTime, Voices();
      ghost var bound := StepsToReach(t0, tempo, limit);
      notes, calls := [], [];
      while nextNoteTime < limit
        invariant Voices() == voices
        invariant PassProgress(notes, step0, t0, tempo, limit, nextNoteTime, current16thNote, voices, calls)
        invariant |notes| <= bound
        decreases bound - |notes|
      {
        var note := Note(current16thNote, nextNoteTime);
        var dispatched := ScheduleNote(note.step, note.time);
        PassAdvances(notes, step0, t0, tempo, limit, note.time, note.step, voices, calls, dispatched, bound);
        notes := notes + [note];
        calls := calls + dispatched;
        NextNote();
      }
      PassEnds(notes, step0, t0, tempo, limit, nextNoteTime, current16thNote, voices, calls);
      timerArmed := true;
    }

    /** `initAudio`: the first call creates the audio context, starts the
        clock at `currentTime`, creates the four voices inactive and runs the
        first scheduler pass, which calls no voice; every later call returns
        at once and changes nothing. */
    method InitAudio(currentTime: real) returns (notes: seq<Note>, calls: seq<Call>)
      requires Valid()
      modifies this
      ensures Valid() && audioReady
      ensures old(audioReady) ==> unchanged(this) && notes == [] && calls == []
      ensures !old(audioReady) ==>
        && isPlaying && timerArmed
        && (forall i :: 0 <= i < |blobs| ==>
              fresh(blobs[i]) && !blobs[i].active && !blobs[i].osc
              && !blobs[i].isStopping && blobs[i].pendingCleanups == 0 && blobs[i].fadeTarget == 0.0)
        && IsWindow(notes, 0, currentTime, tempo, currentTime + scheduleAheadTime)
        && nextNoteTime == TimeAfter(currentTime, tempo, |notes|)
        && current16thNote == StepAfter(0, |notes|)
        && calls == []
    {
      if audioReady {
        notes, calls := [], [];
        return;
      }
      audioReady := true;
      nextNoteTime := currentTime;
      blobs := NewVoices();
      isPlaying := true;
      notes, calls := Scheduler(currentTime);
      ghost var voices := Voices();
      assert forall i :: 0 <= i < |voices| ==> !voices[i].active;
      SilentVoicesGetNoCalls(voices, notes);
    }

    /** `toggleBlob(index)`: before `initAudio` nothing happens; afterwards the
        voice's active flag flips, the drone starts when switched on and stops
        when switched off, and no other voice changes. */
    method ToggleBlob(index: nat)
      requires Valid() && index < |Roster|
      modifies blobs
      ensures Valid()
      ensures audioReady ==>
        && blobs[index].active == !old(blobs[index].active)
        && (forall j :: 0 <= j < |blobs| && j != index ==> unchanged(blobs[j]))
        && (Roster[index] != Drone ==> blobs[index].fadeTarget == old(blobs[index].fadeTarget))
        && (Roster[index] == Drone ==>
              if blobs[index].active then StartedFrom(blobs[index]) else StoppedFrom(blobs[index]))
    {
      if !audioReady {
        return;
      }
      var blob := blobs[index];
      blob.active := !blob.active;
      if blob.active {
        if blob.kind == Drone {
          var _ := blob.Start();
        }
      } else {
        if blob.kind == Drone {
          var _ := blob.Stop();
        }
      }
    }
  }

  /** Switching the drone on makes it sound, yet the next scheduler pass
      still calls no drone: its `play` is unreachable from the scheduler. */
  method DroneSoundsButIsNeverScheduled(now: real, later: real) returns (sounding: bool, calls: seq<Call>)
    ensures sounding
    ensures forall c :: c in calls ==> c.voice != Drone
  {
    var orchestra := new BlobOrchestra();
    var _, _ := orchestra.InitAudio(now);
    orchestra.ToggleBlob(3);
    var notes;
    notes, calls := orchestra.Scheduler(later);
    sounding := orchestra.blobs[3].Sounding();
    DispatchAllCallsActiveVoices(orchestra.Voices(), notes);
  }

  /** Switching the drone on and off again after start-up leaves it fading
      out with exactly one cleanup timer armed. */
  method DroneToggledOffArmsOneCleanup(now: real) returns (stopping: bool, timers: nat)
    ensures stopping && timers == 1
  {
    var orchestra := new BlobOrchestra();
    var _, _ := orchestra.InitAudio(now);
    orchestra.ToggleBlob(3);
    orchestra.ToggleBlob(3);
    stopping := orchestra.blobs[3].isStopping;
    timers := orchestra.blobs[3].pendingCleanups;
  }

  /** A second `initAudio` neither restarts the clock nor schedules anything:
      the clock stays where the first call's pass left it. */
  method SecondInitAudioChangesNothing(now: real, later: real)
    returns (firstNotes: seq<Note>, clock: real, notes: seq<Note>, calls: seq<Call>)
    ensures IsWindow(firstNotes, 0, now, 120.0, now + 0.1)
    ensures clock == TimeAfter(now, 120.0, |firstNotes|)
    ensures notes == [] && calls == []
  {
    var orchestra := new BlobOrchestra();
    var firstCalls;
    firstNotes, firstCalls := orchestra.InitAudio(now);
    notes, calls := orchestra.InitAudio(later);
    clock := orchestra.nextNoteTime;
  }
}
