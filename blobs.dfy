/** One instrument of the orchestra (BlobInstrument with its `active` flag),
    together with the drone's long-lived sound graph and its start / stop /
    deferred-cleanup lifecycle (DroneBlob).  Each audio node is reduced to
    whether it is present; the gain the graph is fading towards is kept as
    `fadeTarget`, and every cleanup timer armed by `Stop` is counted in
    `pendingCleanups` until its callback `Cleanup` runs. */
module Blobs {
  import opened Voices

  /** `setTargetAtTime` level that `start` fades the drone in to. */
  const FadeInLevel: real := 0.15
  /** `setTargetAtTime` level that `stop` fades the drone out to. */
  const FadeOutLevel: real := 0.0
  /** Below this measured gain the cleanup callback tears the graph down. */
  const SilenceThreshold: real := 0.01
  /** Delay in milliseconds between `stop` and its cleanup callback. It only
      records the source's timer delay: an armed timer is counted in
      `pendingCleanups` and fires whenever `Cleanup` is called. */
  const CleanupDelay: real := 2000.0

  class Blob {
    const kind: VoiceKind
    var active: bool
    // The drone's graph: oscillator, low-frequency modulator, gain stage, filter.
    var osc: bool
    var lfo: bool
    var gainNode: bool
    var filter: bool
    var isStopping: bool
    var fadeTarget: real
    var pendingCleanups: nat

    /** The four nodes are built and released together, and only a drone
        ever has them. */
    ghost predicate Valid()
      reads this
    {
      && lfo == osc && gainNode == osc && filter == osc
      && (kind != Drone ==> !osc && !isStopping && pendingCleanups == 0)
    }

    /** Whether the drone's graph exists and is not being faded out. */
    predicate Sounding()
      reads this
    {
      osc && gainNode && !isStopping
    }

    /** A new instrument is inactive and owns no graph. */
    constructor (kind: VoiceKind)
      ensures Valid()
      ensures this.kind == kind && !active
      ensures !osc && !lfo && !gainNode && !filter
      ensures !isStopping && fadeTarget == 0.0 && pendingCleanups == 0
    {
      this.kind := kind;
      active := false;
      osc, lfo, gainNode, filter := false, false, false, false;
      isStopping := false;
      fadeTarget := 0.0;
      pendingCleanups := 0;
    }

    /** `start`: cancel a pending fade-out, build the graph if it is absent
        (`built` says whether it was), and fade in. */
    method Start() returns (built: bool)
      requires Valid() && kind == Drone
      modifies this
      ensures Valid()
      ensures built == !old(osc)
      ensures StartedFrom(this) && active == old(active)
    {
      isStopping := false;
      built := !osc;
      if !osc {
        osc := true;
        gainNode := true;
        filter := true;
        lfo := true;
      }
      fadeTarget := FadeInLevel;
    }

    /** `stop`: without a gain node nothing happens; otherwise mark the drone
        as stopping, fade out and arm one cleanup timer (`armed`). */
    method Stop() returns (armed: bool)
      requires Valid() && kind == Drone
      modifies this
      ensures Valid()
      ensures armed == old(gainNode)
      ensures StoppedFrom(this) && active == old(active)
    {
      armed := gainNode;
      if gainNode {
        isStopping := true;
        fadeTarget := FadeOutLevel;
        pendingCleanups := pendingCleanups + 1;
      }
    }

    /** The cleanup callback of one armed timer; `gain` is the gain stage's
        value when the callback runs.  It releases the graph only if the drone
        is still stopping, the oscillator exists and the gain is below the
        threshold; `isStopping` itself is left as it is. */
    method Cleanup(gain: real) returns (tornDown: bool)
      requires Valid() && kind == Drone && pendingCleanups > 0
      modifies this
      ensures Valid()
      ensures tornDown == (old(isStopping) && old(osc) && gain < SilenceThreshold)
      ensures pendingCleanups == old(pendingCleanups) - 1
      ensures tornDown ==> !osc && !lfo && !gainNode && !filter
      ensures !tornDown ==> osc == old(osc) && lfo == old(lfo) && gainNode == old(gainNode) && filter == old(filter)
      ensures isStopping == old(isStopping) && fadeTarget == old(fadeTarget) && active == old(active)
    {
      pendingCleanups := pendingCleanups - 1;
      tornDown := isStopping && osc && gain < SilenceThreshold;
      if tornDown {
        osc := false;
        lfo := false;
        gainNode := false;
        filter := false;
      }
    }
  }

  /** The state `start` leaves: graph present, no longer stopping, fading in;
      the armed timers untouched. */
  twostate predicate StartedFrom(b: Blob)
    reads b
  {
    && b.osc && b.lfo && b.gainNode && b.filter
    && !b.isStopping && b.fadeTarget == FadeInLevel
    && b.pendingCleanups == old(b.pendingCleanups)
  }

  /** The state `stop` leaves: with a gain node, stopping, fading out and one
      more armed timer; without one, nothing changed.  The graph stays. */
  twostate predicate StoppedFrom(b: Blob)
    reads b
  {
    && b.osc == old(b.osc) && b.lfo == old(b.lfo)
    && b.gainNode == old(b.gainNode) && b.filter == old(b.filter)
    && if old(b.gainNode) then
         b.isStopping && b.fadeTarget == FadeOutLevel && b.pendingCleanups == old(b.pendingCleanups) + 1
       else
         b.isStopping == old(b.isStopping) && b.fadeTarget == old(b.fadeTarget)
         && b.pendingCleanups == old(b.pendingCleanups)
  }

  /** Starting twice builds the graph once: the second `start` finds it. */
  method StartTwiceBuildsOnce() returns (first: bool, second: bool)
    ensures first && !second
  {
    var drone := new Blob(Drone);
    first := drone.Start();
    second := drone.Start();
  }

  /** `stop` on a drone that was never started arms no cleanup. */
  method StopBeforeStartIsNoOp() returns (armed: bool, sounding: bool)
    ensures !armed && !sounding
  {
    var drone := new Blob(Drone);
    armed := drone.Stop();
    sounding := drone.Sounding();
  }

  /** Rapid toggle: a `start` between `stop` and its cleanup keeps the graph,
      whatever gain the cleanup measures. */
  method RestartBeforeCleanupKeepsSound(gain: real) returns (tornDown: bool, sounding: bool)
    ensures !tornDown && sounding
  {
    var drone := new Blob(Drone);
    var _ := drone.Start();
    var _ := drone.Stop();
    var _ := drone.Start();
    tornDown := drone.Cleanup(gain);
    sounding := drone.Sounding();
  }

  /** The cleanup of a stop that is not cancelled releases the graph exactly
      when the gain has decayed below the threshold. */
  method StopThenCleanup(gain: real) returns (tornDown: bool, graphLeft: bool)
    ensures tornDown <==> gain < SilenceThreshold
    ensures graphLeft <==> !tornDown
  {
    var drone := new Blob(Drone);
    var _ := drone.Start();
    var _ := drone.Stop();
    tornDown := drone.Cleanup(gain);
    graphLeft := drone.osc;
  }

  /** The re-check is only as strong as the flag: after stop, start, stop the
      first stop's timer already sees "stopping" and, if the measured gain is
      low, releases the graph before the second timer is due. */
  method StaleTimerAfterRestop(gain: real) returns (tornDown: bool, timersLeft: nat)
    ensures tornDown <==> gain < SilenceThreshold
    ensures timersLeft == 1
  {
    var drone := new Blob(Drone);
    var _ := drone.Start();
    var _ := drone.Stop();
    var _ := drone.Start();
    var _ := drone.Stop();
    tornDown := drone.Cleanup(gain);
    timersLeft := drone.pendingCleanups;
  }
}
