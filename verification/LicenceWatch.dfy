/** The watch that gates a running gateway again on its own clock, and the timer it goes by. */
module LicenceWatch {
  import opened Common
  import opened Licence
  import opened Resolution
  import opened LicenceGate
  import opened GateTheorems
  import opened Runtime
  import opened LicenceLifetime
  import opened GatewayRuns

  /** The lapse and the platform generation the watch has already gated the gateway on. */
  datatype Watch = Watch(lapse: Option<int>, generation: Option<nat>)

  function LapseSeen(rt: Runtime, now: int): Option<int> {
    if rt.lapsesAt.Some? && rt.lapsesAt.value <= now then rt.lapsesAt else None
  }

  /** Whether a tick at `now` gates again, with no failed re-gate to back off from. */
  predicate Due(rt: Runtime, seen: Watch, generation: nat, now: int) {
    var lapse := LapseSeen(rt, now);
    || (lapse.Some? && lapse != seen.lapse)
    || (rt.generation != generation && seen.generation != Some(generation))
  }

  /** The watch after a tick whose re-gate, if one was due, changed nothing and so left the runtime in place. */
  function Tick(rt: Runtime, seen: Watch, generation: nat, now: int): Watch {
    if Due(rt, seen, generation, now) then
      Watch(if LapseSeen(rt, now).Some? then LapseSeen(rt, now) else seen.lapse, Some(generation))
    else seen
  }

  function Ticks(rt: Runtime, seen: Watch, generation: nat, times: seq<int>): Watch
    decreases |times|
  {
    if times == [] then seen else Ticks(rt, Tick(rt, seen, generation, times[0]), generation, times[1..])
  }

  /** Some item the world covered at its own time is no longer covered at `t`. */
  ghost predicate LosesBy(v: Vendor, config: Config, w: World, t: int) {
    exists i :: i in Items(v, config)
      && StandingIn(v, config, w, i).Covered? && !StandingIn(v, config, w.(now := t), i).Covered?
  }

  /** A timer lies ahead of the clock it was set at. */
  lemma TimerIsAhead(v: Vendor, config: Config, w: World, h: History)
    requires v.ClockTime(w.now) && Gate(v, config, w, h).Accepted? && LapsesAt(Gate(v, config, w, h).outcome).Some?
    ensures LapsesAt(Gate(v, config, w, h).outcome).value > w.now
  {
    ScheduledOutcome(v, config, w, h);
  }

  /** What is lost by `t` was scheduled for `t` or before. */
  lemma LossIsScheduled(v: Vendor, config: Config, w: World, h: History, t: int)
    requires w.Attached() && Gate(v, config, w, h).Accepted? && RestsOnDelivery(config, Gate(v, config, w, h).outcome)
    requires v.ClockTime(w.now) && v.ClockTime(t) && w.now <= t
    requires LosesBy(v, config, w, t)
    ensures LapsesAt(Gate(v, config, w, h).outcome).Some? && LapsesAt(Gate(v, config, w, h).outcome).value <= t
  {
    var i :| i in Items(v, config)
      && StandingIn(v, config, w, i).Covered? && !StandingIn(v, config, w.(now := t), i).Covered?;
    CoveredIsLoaded(v, config, w, h, i);
    if LapsesAt(Gate(v, config, w, h).outcome).None? || t < LapsesAt(Gate(v, config, w, h).outcome).value {
      SameClaimsBeforeTimer(v, config, w, h, t);
    }
  }

  /** A runtime gated on the delivery in force is gated again by the time anything it loaded loses its licence. */
  lemma FreshTimerIsTimely(v: Vendor, config: Config, w: World, h: History, seen: Watch, generation: nat, t: int)
    requires w.Attached() && Gate(v, config, w, h).Accepted? && RestsOnDelivery(config, Gate(v, config, w, h).outcome)
    requires v.ClockTime(w.now) && v.ClockTime(t) && w.now <= t
    requires LosesBy(v, config, w, t)
    requires seen.lapse.Some? ==> seen.lapse.value <= w.now
    ensures Due(RuntimeOf(Gate(v, config, w, h).outcome), seen, generation, t)
  {
    LossIsScheduled(v, config, w, h, t);
    TimerIsAhead(v, config, w, h);
  }

  // ----- A timer that is kept -----

  /** Once a tick has acted on the runtime's timer and generation, no later tick is due. */
  lemma {:induction false} WatchFallsQuiet(rt: Runtime, seen: Watch, generation: nat, times: seq<int>)
    requires rt.lapsesAt.Some? && seen == Watch(rt.lapsesAt, Some(generation))
    ensures Ticks(rt, seen, generation, times) == seen
    ensures forall t :: !Due(rt, seen, generation, t)
    decreases |times|
  {
    if times != [] {
      WatchFallsQuiet(rt, seen, generation, times[1..]);
    }
  }

  /** The watch has nothing to act on but the clock passing the runtime's timer. */
  predicate TimerLeft(rt: Runtime, seen: Watch, times: seq<int>, t: int) {
    && rt.lapsesAt.Some? && rt.lapsesAt.value <= t && seen.lapse != rt.lapsesAt
    && forall u :: u in times ==> u < rt.lapsesAt.value
  }

  lemma TickKeepsTimer(rt: Runtime, seen: Watch, generation: nat, times: seq<int>, t: int)
    requires times != []
    ensures TimerLeft(rt, Tick(rt, seen, generation, times[0]), times[1..], t) <==> TimerLeft(rt, seen, times, t)
  {
    var next := Tick(rt, seen, generation, times[0]);
    assert next.lapse == if LapseSeen(rt, times[0]).Some? then rt.lapsesAt else seen.lapse;
    assert times[0] in times;
    if TimerLeft(rt, next, times[1..], t) {
      forall u | u in times ensures u < rt.lapsesAt.value {
        assert u == times[0] || u in times[1..];
      }
    }
    if TimerLeft(rt, seen, times, t) {
      forall u | u in times[1..] ensures u < rt.lapsesAt.value {
        assert u in times;
      }
    }
  }

  /**
   * While a runtime is kept, a tick at `t` after ticks at `times` is due exactly when its timer is the first thing to
   * pass since, and was not acted on before, or when it is the first tick of a new platform generation.
   */
  lemma {:induction false} RetainedTimerDueIff(rt: Runtime, seen: Watch, generation: nat, times: seq<int>, t: int)
    ensures Due(rt, Ticks(rt, seen, generation, times), generation, t) <==>
      || TimerLeft(rt, seen, times, t)
      || (times == [] && rt.generation != generation && seen.generation != Some(generation))
    decreases |times|
  {
    if times != [] {
      var next := Tick(rt, seen, generation, times[0]);
      RetainedTimerDueIff(rt, next, generation, times[1..], t);
      TickKeepsTimer(rt, seen, generation, times, t);
      assert rt.generation == generation || next.generation == Some(generation);
    }
  }

  /** However the ticks fall, the first at or past `lapse` gates again. */
  ghost predicate GatesAt(rt: Runtime, seen: Watch, generation: nat, lapse: int) {
    forall times: seq<int>, t ::
      (forall u :: u in times ==> u < lapse) && lapse <= t ==> Due(rt, Ticks(rt, seen, generation, times), generation, t)
  }

  /**
   * A re-gate in world `w` that keeps the runtime leaves it with the timer it had. The gateway is then gated again at
   * the first tick of the schedule the re-gate itself would set exactly when the kept timer names that same time and
   * was not acted on yet: not when there is none, not when an earlier licence set it, not when it fired already.
   */
  lemma KeptRuntimeTimelyIff(v: Vendor, config: Config, w: World, rt: Runtime, seen: Watch, generation: nat)
    requires Gate(v, config, w, rt.History()).Accepted?
    requires LapsesAt(Gate(v, config, w, rt.History()).outcome).Some?
    ensures var lapse := LapsesAt(Gate(v, config, w, rt.History()).outcome);
      GatesAt(rt, seen, generation, lapse.value) <==> rt.lapsesAt == lapse && seen.lapse != lapse
  {
    TimelyIff(rt, seen, generation, LapsesAt(Gate(v, config, w, rt.History()).outcome).value);
  }

  lemma TimelyIff(rt: Runtime, seen: Watch, generation: nat, lapse: int)
    ensures GatesAt(rt, seen, generation, lapse) <==> rt.lapsesAt == Some(lapse) && seen.lapse != Some(lapse)
  {
    if GatesAt(rt, seen, generation, lapse) {
      var times := [lapse - 1];
      RetainedTimerDueIff(rt, seen, generation, times, lapse);
      assert Due(rt, Ticks(rt, seen, generation, times), generation, lapse);
      assert lapse - 1 in times;
    } else {
      var times: seq<int>, t :| (forall u :: u in times ==> u < lapse) && lapse <= t
        && !Due(rt, Ticks(rt, seen, generation, times), generation, t);
      RetainedTimerDueIff(rt, seen, generation, times, t);
    }
  }

  /**
   * When a runtime that is kept after a re-gate in `w` is gated by a tick at `t`, at which something the re-gate covered
   * is lost. The re-gate's own schedule names a time by then, but the tick acts on the loss exactly when the kept timer
   * comes between the ticks before it and `t`, or the tick is the first of a new platform generation.
   */
  lemma KeptLossGatedIff(
    v: Vendor, config: Config, w: World, rt: Runtime, seen: Watch, generation: nat, times: seq<int>, t: int)
    requires w.Attached() && Gate(v, config, w, rt.History()).Accepted?
    requires RestsOnDelivery(config, Gate(v, config, w, rt.History()).outcome)
    requires v.ClockTime(w.now) && v.ClockTime(t) && w.now <= t && LosesBy(v, config, w, t)
    ensures var lapse := LapsesAt(Gate(v, config, w, rt.History()).outcome);
      && lapse.Some? && w.now < lapse.value <= t
      && (Due(rt, Ticks(rt, seen, generation, times), generation, t) <==>
            || TimerLeft(rt, seen, times, t)
            || (times == [] && rt.generation != generation && seen.generation != Some(generation)))
  {
    LossIsScheduled(v, config, w, rt.History(), t);
    TimerIsAhead(v, config, w, rt.History());
    RetainedTimerDueIff(rt, seen, generation, times, t);
  }
}
