/** Which views a booting gateway waits on, said of the config and of what the control plane has sent. */
module BootWaits {
  import opened Common
  import opened Licence
  import opened Resolution
  import opened LicenceGate
  import opened GateTheorems
  import opened BootGate
  import opened Runtime
  import opened Coverage

  // ----- What a delivery could still change -----

  /** A licence was delivered, and does not verify. */
  predicate Unverifiable(v: Vendor, d: Delivery, now: int) {
    d.Delivered? && Trim(d.jwt) != "" && VerifyDelivered(v, Trim(d.jwt), d.org, d.origin.At(now)).Err?
  }

  /**
   * The control plane has not said its word on the licence. Beside a block only a proven delivery would count, so one
   * read back has still to be sent again.
   */
  predicate Open(v: Vendor, config: Config, w: World) {
    || w.delivery.Pending?
    || Unverifiable(v, w.delivery, w.now)
    || (BlockCounts(config, w) && w.delivery.Delivered? && w.delivery.origin.At(w.now).Cached?)
  }

  /** The block's own licence is past its grace. */
  predicate BlockLapsed(v: Vendor, config: Config, w: World) {
    && config.block.Block? && !config.block.nonProductionUse && config.block.token.TokenVerified?
    && (var licence := config.block.token.licence;
        w.now >= v.graceEndsAfter(licence.claims.exp, v.graceDays(licence.role)))
  }

  /** The licence gives a reason why what it does not cover waits. */
  predicate GivesReason(v: Vendor, config: Config, w: World) {
    !BlockCounts(config, w) || Open(v, config, w) || BlockLapsed(v, config, w)
  }

  /** A block whose token was rejected leaves nothing to judge by, unless a delivery may still come. */
  predicate Unresolved(v: Vendor, config: Config, w: World) {
    && BlockCounts(config, w) && !config.block.nonProductionUse && config.block.token.TokenRejected?
    && !Open(v, config, w)
  }

  lemma OpenIff(v: Vendor, config: Config, w: World)
    requires w.Attached()
    ensures Resolve(v, config.block, w).Err? <==> Unresolved(v, config, w)
    ensures !Unresolved(v, config, w) ==>
      var hold := Resolve(v, config.block, w).value.hold;
      && (hold.Some? <==> GivesReason(v, config, w))
      && (hold.Some? && hold.value.MayResolveByDelivery() <==> Open(v, config, w))
      && (hold.Some? ==> !hold.value.NotBound? && !hold.value.AndNotBound?)
  {
  }

  // ----- When the answer may change -----

  /** Some item is in the bound set, where it could be, and the licence does not cover it. */
  ghost predicate SomeUncovered(v: Vendor, config: Config, w: World) {
    exists i :: i in Items(v, config) && StandingIn(v, config, w, i).Uncovered?
  }

  ghost predicate SomeLeftOut(v: Vendor, config: Config, w: World) {
    exists i :: i in Items(v, config) && StandingIn(v, config, w, i).LeftOut?
  }

  predicate DeliveryCached(view: View) {
    view.w.delivery.Delivered? && view.w.delivery.origin.IsCached()
  }

  /**
   * The views a boot waits on. The first start of a gateway waits for a licence, unless the bound set already refuses
   * it. A restart waits for a licence, or for the control plane to confirm what it read back; an item the bound set
   * leaves out makes it look at what was read back alone.
   */
  ghost predicate StillOpen(v: Vendor, config: Config, view: View) {
    var uncovered, leftOut := SomeUncovered(v, config, view.w), SomeLeftOut(v, config, view.w);
    && view.w.Attached() && !Unresolved(v, config, view.w)
    && (uncovered ==> GivesReason(v, config, view.w))
    && if !view.restarted then uncovered && !leftOut && Open(v, config, view.w)
       else if uncovered && leftOut then DeliveryCached(view) || view.boundCached
       else if uncovered then Open(v, config, view.w) || DeliveryCached(view)
       else leftOut && view.boundCached
  }

  // ----- Judged on a first start -----

  ghost predicate Stands(c: Ctx, items: seq<Item>, s: Standing) {
    exists i :: i in items && StandingOf(c.v, c.resolved.claims, c.w.bound, i) == s
  }

  /** On a first start an attached gateway is refused for what is left out, or for what no reason lets wait. */
  lemma FirstStart(c: Ctx, items: seq<Item>)
    requires c.w.Attached() && c.h == History({}, [], false)
    ensures match Judge(c, items)
      case Accepted(o) =>
        && !Stands(c, items, LeftOut)
        && (Stands(c, items, Uncovered) ==> c.resolved.hold.Some?)
        && o.hold == (if Stands(c, items, Uncovered) then c.resolved.hold else None)
      case Refused(r) =>
        && r.hold == c.resolved.hold
        && (r.refused == [] <==> !Stands(c, items, LeftOut) && c.resolved.hold.Some?)
        && (r.refused == [] ==> Stands(c, items, Uncovered))
  {
    JudgeAccepts(c, items);
    var refused, awaited := Select(c, items, IsRefused), Select(c, items, IsAwaited);
    assert refused != [] ==> refused[0] in refused;
    assert awaited != [] ==> awaited[0] in awaited;
    assert refused == [] <==> AsFindings(c, refused) == [];
    assert awaited == [] <==> AsFindings(c, awaited) == [];
    if Stands(c, items, LeftOut) {
      var i :| i in items && StandingOf(c.v, c.resolved.claims, c.w.bound, i).LeftOut?;
      assert FateOf(c, i).Refuse? && i in refused;
    }
    if Stands(c, items, Uncovered) {
      var i :| i in items && StandingOf(c.v, c.resolved.claims, c.w.bound, i).Uncovered?;
      assert c.resolved.hold.None? ==> FateOf(c, i).Refuse? && i in refused;
      assert c.resolved.hold.Some? && CanBeWithheld(i) ==> FateOf(c, i).TakeBack?;
    }
  }

  /** A restarted gateway is refused only for what no reason lets wait. */
  lemma Restarted(c: Ctx, items: seq<Item>)
    requires c.w.Attached() && c.h == RESTARTED
    ensures match Judge(c, items)
      case Accepted(o) =>
        && (Stands(c, items, Uncovered) ==> c.resolved.hold.Some?)
        && o.hold == HoldFor(c.resolved.hold, Stands(c, items, Uncovered), Stands(c, items, LeftOut))
      case Refused(r) => r.hold.None? && c.resolved.hold.None? && Stands(c, items, Uncovered)
  {
    JudgeAccepts(c, items);
    if Judge(c, items).Refused? {
      var i :| i in items && (FateOf(c, i).Refuse? || FateOf(c, i).Await?);
      assert StandingOf(c.v, c.resolved.claims, c.w.bound, i).Uncovered?;
    } else {
      assert forall i :: i in items && !StandingOf(c.v, c.resolved.claims, c.w.bound, i).Covered? ==> FateOf(c, i).TakeBack?;
      assert TakesBack(c, items, Uncovered) == Stands(c, items, Uncovered);
      assert TakesBack(c, items, LeftOut) == Stands(c, items, LeftOut);
    }
  }

  // ----- The views a boot waits on -----

  function GateOf(v: Vendor, config: Config): ConfigGate {
    (w, h) => Gate(v, config, w, h)
  }

  lemma UnresolvedNeverWaits(v: Vendor, config: Config, view: View)
    requires view.w.Attached() && Unresolved(v, config, view.w)
    ensures !MayChange(GateOf(v, config), view)
  {
    OpenIff(v, config, view.w);
    var h := History({}, [], view.restarted);
    if Items(v, config) == [] {
      var c := Ctx(v, Resolved(v.community, COMMUNITY_STATUS, None), view.w, h);
      JudgeAccepts(c, []);
      assert Gate(v, config, view.w, h).outcome.hold.None?;
    } else {
      assert Gate(v, config, view.w, h).Refused?;
    }
  }

  lemma FirstStartWaitsIff(v: Vendor, config: Config, view: View)
    requires view.w.Attached() && !view.restarted && !Unresolved(v, config, view.w)
    ensures MayChange(GateOf(v, config), view) <==> StillOpen(v, config, view)
  {
    OpenIff(v, config, view.w);
    var c := Ctx(v, Resolve(v, config.block, view.w).value, view.w, History({}, [], false));
    FirstStart(c, Items(v, config));
    assert Stands(c, Items(v, config), Uncovered) == SomeUncovered(v, config, view.w);
    assert Stands(c, Items(v, config), LeftOut) == SomeLeftOut(v, config, view.w);
    assert Answer(GateOf(v, config), view) == Judge(c, Items(v, config));
  }

  lemma RestartAnswer(v: Vendor, config: Config, view: View)
    requires view.w.Attached() && view.restarted && Resolve(v, config.block, view.w).Ok?
    ensures var hold := Resolve(v, config.block, view.w).value.hold;
      var uncovered, leftOut := SomeUncovered(v, config, view.w), SomeLeftOut(v, config, view.w);
      match Answer(GateOf(v, config), view)
      case Accepted(o) => (uncovered ==> hold.Some?) && o.hold == HoldFor(hold, uncovered, leftOut)
      case Refused(r) => r.hold.None? && hold.None? && uncovered
  {
    var c := Ctx(v, Resolve(v, config.block, view.w).value, view.w, RESTARTED);
    Restarted(c, Items(v, config));
    assert Stands(c, Items(v, config), Uncovered) == SomeUncovered(v, config, view.w);
    assert Stands(c, Items(v, config), LeftOut) == SomeLeftOut(v, config, view.w);
    assert Answer(GateOf(v, config), view) == Judge(c, Items(v, config));
  }

  /** What a restart waits on, by the reasons that keep items out. */
  lemma RestartHold(view: View, hold: Option<HoldReason>, uncovered: bool, leftOut: bool)
    requires view.w.Attached() && view.restarted && (uncovered ==> hold.Some?)
    requires hold.Some? ==> !hold.value.NotBound? && !hold.value.AndNotBound?
    ensures var reason := HoldFor(hold, uncovered, leftOut);
      reason.Some? && Waits(view, reason.value) <==>
        if uncovered && leftOut then DeliveryCached(view) || view.boundCached
        else if uncovered then hold.value.MayResolveByDelivery() || DeliveryCached(view)
        else leftOut && view.boundCached
  {
  }

  lemma RestartWaitsIff(v: Vendor, config: Config, view: View)
    requires view.w.Attached() && view.restarted && !Unresolved(v, config, view.w)
    ensures MayChange(GateOf(v, config), view) <==> StillOpen(v, config, view)
  {
    var uncovered, leftOut := SomeUncovered(v, config, view.w), SomeLeftOut(v, config, view.w);
    OpenIff(v, config, view.w);
    RestartAnswer(v, config, view);
    var hold := Resolve(v, config.block, view.w).value.hold;
    if uncovered ==> hold.Some? {
      RestartHold(view, hold, uncovered, leftOut);
    }
  }

  /** A standalone gateway waits for nobody. */
  lemma StandaloneNeverWaits(v: Vendor, config: Config, view: View)
    requires !view.w.Attached()
    ensures !MayChange(GateOf(v, config), view)
  {
    StandaloneHold(v, config, view.w, History({}, [], false));
  }

  lemma StandaloneHold(v: Vendor, config: Config, w: World, h: History)
    requires !w.Attached()
    ensures match Gate(v, config, w, h)
      case Accepted(o) => o.hold.None? || !o.hold.value.MayResolveByDelivery()
      case Refused(r) => r.refused != [] || r.hold.None? || !r.hold.value.MayResolveByDelivery()
  {
    var r := Resolve(v, config.block, w);
    assert r.Ok? && r.value.hold.Some? ==> r.value.hold.value.Lapsed?;
  }

  /** A boot waits on exactly the views that are still open. */
  lemma WaitsIffOpen(v: Vendor, config: Config, view: View)
    ensures MayChange(GateOf(v, config), view) <==> StillOpen(v, config, view)
  {
    if !view.w.Attached() {
      StandaloneNeverWaits(v, config, view);
    } else if Unresolved(v, config, view.w) {
      UnresolvedNeverWaits(v, config, view);
    } else if view.restarted {
      RestartWaitsIff(v, config, view);
    } else {
      FirstStartWaitsIff(v, config, view);
    }
  }

  /**
   * A booting gateway answers with the first view that is closed, or that it looks at past its deadline, as its config
   * is gated there.
   */
  method GateConfigAtBoot(v: Vendor, config: Config, started: int, wait: nat, views: seq<View>)
    returns (verdict: Verdict, k: nat)
    requires forall i :: 0 <= i < |views| ==> views[i].start <= views[i].check
    requires exists i :: 0 <= i < |views| && views[i].start >= Bound(started, wait)
    ensures k < |views|
    ensures verdict == Stamped(
      Gate(v, config, views[k].w, History({}, [], views[k].w.Attached() && views[k].restarted)), views[k].generation)
    ensures forall i :: 0 <= i < k ==>
      StillOpen(v, config, views[i]) && views[i].check < BootDeadline(started, wait, views[i].slotFreesAt)
    ensures StillOpen(v, config, views[k]) ==> views[k].check >= BootDeadline(started, wait, views[k].slotFreesAt)
    ensures forall i :: 0 <= i < k ==> views[i].start < Bound(started, wait)
  {
    verdict, k := GateAtBoot(GateOf(v, config), started, wait, views);
    forall i | 0 <= i < |views| ensures MayChange(GateOf(v, config), views[i]) <==> StillOpen(v, config, views[i]) {
      WaitsIffOpen(v, config, views[i]);
    }
  }

  // ----- What this comes to without a `license:` block -----

  /** A first start waits while nothing was delivered, or nothing that verifies, and something needs it. */
  lemma FirstStartWaitsForLicence(v: Vendor, config: Config, view: View)
    requires view.w.Attached() && !view.restarted && config.block.NoBlock? && !SomeLeftOut(v, config, view.w)
    ensures StillOpen(v, config, view) <==>
      && (view.w.delivery.Pending? || Unverifiable(v, view.w.delivery, view.w.now))
      && exists i :: i in Items(v, config) && StandingOf(v, v.community, view.w.bound, i).Uncovered?
  {
    if view.w.delivery.Pending? || Unverifiable(v, view.w.delivery, view.w.now) {
      assert ClaimsFor(v, config, view.w) == v.community;
    }
  }

  /** On a live delivery that verifies, with a bound set the control plane sent, no boot waits. */
  lemma VerifiedNeverWaits(v: Vendor, config: Config, view: View)
    requires view.w.delivery.Delivered? && !DeliveryCached(view) && !view.boundCached && config.block.NoBlock?
    requires !Unverifiable(v, view.w.delivery, view.w.now)
    ensures !StillOpen(v, config, view)
  {
  }

  /** A restart waits while anything is kept out by what it read back. */
  lemma RestartWaitsOnCache(v: Vendor, config: Config, view: View)
    requires view.w.Attached() && view.restarted && config.block.NoBlock?
    requires
      || (DeliveryCached(view) && SomeUncovered(v, config, view.w))
      || (view.boundCached && SomeLeftOut(v, config, view.w))
    ensures StillOpen(v, config, view)
  {
  }

  /**
   * A restarted gateway that has not been delivered a licence, with a bound set the control plane itself sent, waits
   * for what is uncovered exactly when that set leaves nothing out.
   */
  lemma UndeliveredRestartWaitsIff(v: Vendor, config: Config, view: View)
    requires view.restarted && view.w.delivery.Pending? && !view.boundCached && SomeUncovered(v, config, view.w)
    ensures StillOpen(v, config, view) <==> !SomeLeftOut(v, config, view.w)
  {
  }

  /** A booted runtime is behind the platform exactly when the count moved after its last view read it. */
  lemma BootedBehindIff(verdict: Verdict, view: View, generation: nat)
    requires Stamped(verdict, view.generation).Accepted?
    ensures RuntimeOf(Stamped(verdict, view.generation).outcome).generation != generation <==> view.generation != generation
  {
  }
}
