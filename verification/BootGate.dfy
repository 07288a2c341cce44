/** The boot gate: evaluate, wait for a delivery that may change the answer, give up at a deadline. */
module BootGate {
  import opened Common
  import opened Licence
  import opened Resolution
  import opened LicenceGate

  /** The most, in milliseconds, a held slot can add to the wait. */
  const MAX_SLOT_WAIT := 125_000

  function Clamp(x: int, lo: int, hi: int): int
    requires lo <= hi
  {
    if x < lo then lo else if hi < x then hi else x
  }

  /** The deadline of one iteration: `wait` from the start, moved by a held slot to `wait` after it frees, up to a cap. */
  function BootDeadline(started: int, wait: nat, slotFreesAt: Option<int>): (deadline: int)
    ensures started + wait <= deadline <= started + wait + 125_000
    ensures deadline > started + wait ==> slotFreesAt.Some? && deadline <= slotFreesAt.value + wait
    ensures slotFreesAt.Some? && slotFreesAt.value <= started + 125_000
      ==> deadline >= slotFreesAt.value + wait
  {
    var base := started + wait;
    match slotFreesAt
    case None => base
    case Some(at) => Clamp(at + wait, base, base + MAX_SLOT_WAIT)
  }

  /** What one iteration reads: when it starts, when it checks the deadline, and the platform's cells. */
  datatype View = View(
    start: int, check: int, slotFreesAt: Option<int>,
    generation: nat, w: World, restarted: bool, boundCached: bool)

  predicate Waits(view: View, hold: HoldReason) {
    var restart := view.w.Attached() && view.restarted;
    var deliveryCached := restart && view.w.delivery.Delivered? && view.w.delivery.origin.IsCached();
    hold.MayResolveByDelivery() || hold.RestsOnCache(deliveryCached, restart && view.boundCached)
  }

  /** The gate of one config, as the loop calls it. */
  type ConfigGate = (World, History) -> Verdict

  /** The answer one iteration evaluates: nothing ran yet. */
  function Answer(gate: ConfigGate, view: View): Verdict {
    gate(view.w, History({}, [], view.w.Attached() && view.restarted))
  }

  /** The control plane's word could still change the answer. */
  predicate MayChange(gate: ConfigGate, view: View) {
    match Answer(gate, view)
    case Accepted(o) => o.hold.Some? && Waits(view, o.hold.value)
    case Refused(r) => r.refused == [] && r.hold.Some? && r.hold.value.MayResolveByDelivery()
  }

  function Stamped(verdict: Verdict, generation: nat): Verdict {
    match verdict
    case Accepted(o) => Accepted(o.(generation := generation))
    case Refused(_) => verdict
  }

  /** No deadline is later, whatever slots are refused. */
  function Bound(started: int, wait: nat): int {
    started + wait + MAX_SLOT_WAIT
  }

  /** The iteration waits on: its answer may change, and its deadline has not come. */
  predicate WaitsOn(gate: ConfigGate, started: int, wait: nat, view: View) {
    MayChange(gate, view) && view.check < BootDeadline(started, wait, view.slotFreesAt)
  }

  /**
   * Gates a boot over any history of views, one per wake-up. It answers with iteration `k`, the first that does not
   * wait: an answer the control plane could still change is returned only at or past that iteration's deadline, and
   * no iteration that waited had started at or after the bound on all deadlines.
   */
  method GateAtBoot(gate: ConfigGate, started: int, wait: nat, views: seq<View>) returns (verdict: Verdict, k: nat)
    requires forall i :: 0 <= i < |views| ==> views[i].start <= views[i].check
    requires exists i :: 0 <= i < |views| && views[i].start >= Bound(started, wait)
    ensures k < |views| && verdict == Stamped(Answer(gate, views[k]), views[k].generation)
    ensures forall i :: 0 <= i < k ==> WaitsOn(gate, started, wait, views[i])
    ensures !WaitsOn(gate, started, wait, views[k])
    ensures MayChange(gate, views[k]) ==> views[k].check >= BootDeadline(started, wait, views[k].slotFreesAt)
    ensures forall i :: 0 <= i < k ==> views[i].start < Bound(started, wait)
  {
    k := 0;
    while true
      invariant k < |views|
      invariant forall i :: 0 <= i < k ==> WaitsOn(gate, started, wait, views[i])
      decreases |views| - k
    {
      var view := views[k];
      var deadline := BootDeadline(started, wait, view.slotFreesAt);
      var restart := view.w.Attached() && view.restarted;
      var canWait := view.check < deadline;
      verdict := gate(view.w, History({}, [], restart));
      match verdict {
        case Accepted(outcome) =>
          if !(canWait && outcome.hold.Some? && Waits(view, outcome.hold.value)) {
            verdict := Accepted(outcome.(generation := view.generation));
            return;
          }
        case Refused(refusal) =>
          if !(canWait && refusal.refused == [] && refusal.hold.Some? && refusal.hold.value.MayResolveByDelivery()) {
            return;
          }
      }
      k := k + 1;
    }
  }
}
