/** Whole runs of an attached gateway: reloads, re-gates and failed builds in any order. */
module GatewayRuns {
  import opened Common
  import opened Licence
  import opened Resolution
  import opened LicenceGate
  import opened GateTheorems
  import opened Runtime

  // ----- What a runtime owes its config -----

  predicate Accounted(rt: Runtime, i: Item) {
    i.Key() in rt.admitted || (CanBeWithheld(i) && i.Name() in rt.withheld)
  }

  /** Everything gated in `config` is loaded, or withheld by a gateway that can run without it. */
  ghost predicate Covers(v: Vendor, config: Config, rt: Runtime) {
    forall i :: i in Items(v, config) ==> Accounted(rt, i)
  }

  lemma AcceptedCovers(v: Vendor, config: Config, w: World, h: History)
    requires w.Attached() && Gate(v, config, w, h).Accepted?
    ensures Covers(v, config, RuntimeOf(Gate(v, config, w, h).outcome))
  {
    if Resolve(v, config.block, w).Ok? {
      JudgedCovers(Ctx(v, Resolve(v, config.block, w).value, w, h), Items(v, config));
    }
  }

  lemma JudgedCovers(c: Ctx, items: seq<Item>)
    requires Judge(c, items).Accepted?
    ensures forall i :: i in items ==> Accounted(RuntimeOf(Judge(c, items).outcome), i)
  {
    JudgeAccepts(c, items);
    var o := Judge(c, items).outcome;
    var withheld := Select(c, items, IsWithheld);
    forall i | i in items ensures Accounted(RuntimeOf(o), i) {
      if Falls(c, i, IsWithheld) {
        assert i in withheld;
        var k :| 0 <= k < |withheld| && withheld[k] == i;
        assert RuntimeOf(o).withheld[k] == i.Name();
      }
    }
  }

  /** What the runtime accounts for is kept or taken back, unless no hold says why it waits. */
  lemma AccountedFate(c: Ctx, rt: Runtime, i: Item)
    requires c.w.Attached() && c.h == rt.History() && Accounted(rt, i)
    ensures !FateOf(c, i).Refuse? && !FateOf(c, i).Await?
       <==> c.resolved.hold.Some? || !StandingOf(c.v, c.resolved.claims, c.w.bound, i).Uncovered?
  {
  }

  lemma AccountedAccepted(c: Ctx, rt: Runtime, items: seq<Item>)
    requires c.w.Attached() && c.h == rt.History() && forall i :: i in items ==> Accounted(rt, i)
    ensures Judge(c, items).Accepted? <==>
      c.resolved.hold.Some? ||
      forall i :: i in items ==> !StandingOf(c.v, c.resolved.claims, c.w.bound, i).Uncovered?
  {
    JudgeAccepts(c, items);
    forall i | i in items
      ensures !FateOf(c, i).Refuse? && !FateOf(c, i).Await?
         <==> c.resolved.hold.Some? || !StandingOf(c.v, c.resolved.claims, c.w.bound, i).Uncovered?
    {
      AccountedFate(c, rt, i);
    }
  }

  /** For a gateway that accounts for its config, a re-gate is refused exactly for what its own licence does not entitle. */
  lemma RegateAcceptedIff(v: Vendor, config: Config, w: World, rt: Runtime)
    requires w.Attached() && Covers(v, config, rt)
    ensures Gate(v, config, w, rt.History()).Accepted? <==>
      match Resolve(v, config.block, w)
      case Err(_) => Items(v, config) == []
      case Ok(r) => r.hold.Some? || forall i :: i in Items(v, config) ==> !StandingIn(v, config, w, i).Uncovered?
  {
    if Resolve(v, config.block, w).Ok? {
      AccountedAccepted(Ctx(v, Resolve(v, config.block, w).value, w, rt.History()), rt, Items(v, config));
    } else {
      JudgeAccepts(Ctx(v, Resolved(v.community, COMMUNITY_STATUS, None), w, rt.History()), Items(v, config));
    }
  }

  // ----- Re-gating an unchanged world -----

  /** A re-gate answers that only a reload would apply it. */
  predicate RegateChanges(rt: Runtime, o: Outcome) {
    o.status.withheld != rt.withheld || ToolHoldOf(o) != rt.toolHold
  }

  /** A re-gate that reports no change withholds and holds what the runtime does, and refuses calls for the same reason. */
  lemma NoChangeMeansSame(o: Outcome, o': Outcome)
    requires !RegateChanges(RuntimeOf(o), o')
    ensures o'.status.withheld == RuntimeOf(o).withheld && o'.held == o.held
    ensures ToolGates(o'.withheld) == ToolGates(o.withheld)
    ensures o.held != [] || ToolGates(o.withheld) != [] ==> o'.hold == o.hold
  {
  }

  /** Re-gating the world a runtime was gated in is accepted and changes nothing. */
  lemma RegateIsFixpoint(v: Vendor, config: Config, w: World, h: History)
    requires w.Attached() && Gate(v, config, w, h).Accepted?
    ensures var rt := RuntimeOf(Gate(v, config, w, h).outcome); var again := Gate(v, config, w, rt.History());
      again == Gate(v, config, w, h) && !RegateChanges(rt, again.outcome)
  {
    var rt := RuntimeOf(Gate(v, config, w, h).outcome);
    AcceptedCovers(v, config, w, h);
    RegateAcceptedIff(v, config, w, rt);
    AcceptedNeedsNoHold(v, config, w, h);
    HistoryIndependence(v, config, w, h, rt.History());
    WithheldNamesMatch(v, config, w, h);
  }

  lemma AcceptedNeedsNoHold(v: Vendor, config: Config, w: World, h: History)
    requires w.Attached() && Gate(v, config, w, h).Accepted?
    ensures match Resolve(v, config.block, w)
      case Err(_) => Items(v, config) == []
      case Ok(r) => r.hold.Some? || forall i :: i in Items(v, config) ==> !StandingIn(v, config, w, i).Uncovered?
  {
    if Resolve(v, config.block, w).Ok? {
      JudgeAccepts(Ctx(v, Resolve(v, config.block, w).value, w, h), Items(v, config));
    }
  }

  lemma JudgedNamesMatch(c: Ctx, items: seq<Item>)
    requires Judge(c, items).Accepted?
    ensures var o := Judge(c, items).outcome;
      o.status.withheld == RuntimeOf(o).withheld == Names(Select(c, items, IsWithheld))
  {
    var withheld := Select(c, items, IsWithheld);
    assert RuntimeOf(Judge(c, items).outcome).withheld == Names(withheld);
  }

  lemma WithheldNamesMatch(v: Vendor, config: Config, w: World, h: History)
    requires Gate(v, config, w, h).Accepted?
    ensures Gate(v, config, w, h).outcome.status.withheld == RuntimeOf(Gate(v, config, w, h).outcome).withheld
  {
    AcceptedIsJudged(v, config, w, h);
    JudgedNamesMatch(CtxFor(v, config, w, h), Items(v, config));
  }

  // ----- Runs -----

  /** The base config the gateway reloads from, and what runs. */
  datatype Gateway = Gateway(base: Config, runtime: Runtime)

  /** A reload that passes the gate stores its base at once, and replaces what runs only if the build succeeds. */
  datatype Event =
    | Reload(config: Config, w: World, builds: bool)
    | Reapply(w: World, builds: bool)

  function Step(v: Vendor, g: Gateway, e: Event): Gateway {
    var config := if e.Reload? then e.config else g.base;
    match Gate(v, config, e.w, g.runtime.History())
    case Refused(_) => g
    case Accepted(o) => Gateway(config, if e.builds then RuntimeOf(o) else g.runtime)
  }

  function Run(v: Vendor, g: Gateway, events: seq<Event>): Gateway
    decreases |events|
  {
    if events == [] then g else Run(v, Step(v, g, events[0]), events[1..])
  }

  /** The runtime accounts for the base config, so it can be gated again on any delivery. */
  ghost predicate InStep(v: Vendor, g: Gateway) {
    Covers(v, g.base, g.runtime)
  }

  /** No reload of another config passed the gate and then failed to build. */
  predicate NoFailedBuild(events: seq<Event>) {
    forall e :: e in events && e.Reload? ==> e.builds
  }

  lemma StepStaysInStep(v: Vendor, g: Gateway, e: Event)
    requires InStep(v, g) && e.w.Attached() && (e.Reload? ==> e.builds)
    ensures InStep(v, Step(v, g, e))
  {
    var config := if e.Reload? then e.config else g.base;
    if Gate(v, config, e.w, g.runtime.History()).Accepted? {
      AcceptedCovers(v, config, e.w, g.runtime.History());
    }
  }

  /** A reload that builds puts the gateway back in step, whatever failed before it. */
  lemma BuildRestoresStep(v: Vendor, g: Gateway, e: Event)
    requires e.w.Attached() && e.builds
    requires Gate(v, if e.Reload? then e.config else g.base, e.w, g.runtime.History()).Accepted?
    ensures InStep(v, Step(v, g, e))
  {
    AcceptedCovers(v, if e.Reload? then e.config else g.base, e.w, g.runtime.History());
  }

  lemma {:induction false} RunStaysInStep(v: Vendor, g: Gateway, events: seq<Event>)
    requires InStep(v, g) && NoFailedBuild(events)
    requires forall e :: e in events ==> e.w.Attached()
    ensures InStep(v, Run(v, g, events))
    decreases |events|
  {
    if events != [] {
      StepStaysInStep(v, g, events[0]);
      RunStaysInStep(v, Step(v, g, events[0]), events[1..]);
    }
  }

  /** In step, with no licence of its own, a gateway is never refused: it lands where a restart would. */
  lemma InStepNeverRefuses(v: Vendor, g: Gateway, w: World)
    requires InStep(v, g) && w.Attached()
    requires g.base.block.NoBlock? || w.delivery.ProvenAt(w.now)
    ensures Gate(v, g.base, w, g.runtime.History()).Accepted?
    ensures Gate(v, g.base, w, g.runtime.History()) == Landing(v, g.base, w)
  {
    DeliveryAlwaysHolds(v, g.base.block, w);
    RegateAcceptedIff(v, g.base, w, g.runtime);
    AcceptedIsLanding(v, g.base, w, g.runtime.History());
  }

  /** A gateway once accepted is accepted on every later re-gate, after any reloads, deliveries, bound sets and clocks. */
  lemma NeverRefusesItself(v: Vendor, config: Config, boot: World, h: History, events: seq<Event>, w: World)
    requires boot.Attached() && Gate(v, config, boot, h).Accepted?
    requires NoFailedBuild(events) && forall e :: e in events ==> e.w.Attached()
    requires w.Attached()
    ensures var g := Run(v, Gateway(config, RuntimeOf(Gate(v, config, boot, h).outcome)), events);
      g.base.block.NoBlock? ==>
        && Gate(v, g.base, w, g.runtime.History()).Accepted?
        && Gate(v, g.base, w, g.runtime.History()) == Landing(v, g.base, w)
  {
    var start := Gateway(config, RuntimeOf(Gate(v, config, boot, h).outcome));
    AcceptedCovers(v, config, boot, h);
    RunStaysInStep(v, start, events);
    var g := Run(v, start, events);
    if g.base.block.NoBlock? {
      InStepNeverRefuses(v, g, w);
    }
  }

  // ----- Out of step -----

  predicate Ran(rt: Runtime, i: Item) {
    i.Key() in rt.admitted || i.Name() in rt.withheld
  }

  /** What the runtime withholds can be withheld, which every runtime a gate made satisfies. */
  ghost predicate WithholdsOnlyWithholdable(rt: Runtime) {
    forall id :: id in rt.withheld ==> CanBeWithheld(Plugin(id))
  }

  lemma RuntimeWithholdsOnlyWithholdable(v: Vendor, config: Config, w: World, h: History)
    requires Gate(v, config, w, h).Accepted?
    ensures WithholdsOnlyWithholdable(RuntimeOf(Gate(v, config, w, h).outcome))
  {
    AcceptedIsJudged(v, config, w, h);
    var c := CtxFor(v, config, w, h);
    JudgedNamesMatch(c, Items(v, config));
    var chosen := Select(c, Items(v, config), IsWithheld);
    forall id | id in Names(chosen) ensures CanBeWithheld(Plugin(id)) {
      var k :| 0 <= k < |chosen| && Names(chosen)[k] == id;
      assert chosen[k] in chosen;
    }
  }

  /** No delivery, bound set or clock gets the runtime refused. */
  ghost predicate NeverRefused(v: Vendor, config: Config, rt: Runtime) {
    forall w: World :: w.Attached() ==> Gate(v, config, w, rt.History()).Accepted?
  }

  /** The licence a delivery can carry in `jwt`: a cloud one, or a self-host one the cloud policy turns away by role. */
  function Carried(v: Vendor, jwt: string): Option<VendorLicence> {
    match v.verify(Trim(jwt), CLOUD_POLICY)
    case Verified(licence) => Some(licence)
    case Failed(true, _) => (
      match v.verify(Trim(jwt), SELF_HOST_POLICY)
      case Verified(licence) => Some(licence)
      case Failed(_, _) => None)
    case Failed(false, _) => None
  }

  predicate CarriedCovers(v: Vendor, jwt: string, i: Item) {
    Trim(jwt) != "" && Carried(v, jwt).Some? ==> CoveredBy(v, Carried(v, jwt).value.claims, i)
  }

  /** No licence that can be delivered, nor the lack of one, leaves the item uncovered. */
  ghost predicate AlwaysCovered(v: Vendor, i: Item) {
    CoveredBy(v, v.community, i) && forall jwt: string :: CarriedCovers(v, jwt, i)
  }

  /** A bound set can leave a plugin out, but not the coordinator, nor a surface. */
  predicate CanBeLeftOut(v: Vendor, i: Item) {
    i.Plugin? && i.id != v.coordinator
  }

  /**
   * Nothing the control plane says gets the item refused: one that can be left out of the bound set must have run;
   * another may be loaded, or be one to withhold, or one that every licence covers.
   */
  ghost predicate Safe(v: Vendor, rt: Runtime, i: Item) {
    if CanBeLeftOut(v, i) then Ran(rt, i)
    else i.Key() in rt.admitted || CanBeWithheld(i) || AlwaysCovered(v, i)
  }

  /** What a delivery resolves to is the community tier, or a licence it can carry. */
  lemma DeliveredClaims(v: Vendor, delivery: Delivery, now: int)
    ensures var claims := ResolveDelivery(v, delivery, now).claims;
      || claims == v.community
      || (delivery.Delivered? && Trim(delivery.jwt) != "" && Carried(v, delivery.jwt).Some?
          && claims == Carried(v, delivery.jwt).value.claims)
  {
  }

  lemma SafeFate(c: Ctx, rt: Runtime, i: Item)
    requires c.w.Attached() && c.h == rt.History() && c.resolved == ResolveDelivery(c.v, c.w.delivery, c.w.now)
    requires WithholdsOnlyWithholdable(rt) && Safe(c.v, rt, i)
    ensures !FateOf(c, i).Refuse? && !FateOf(c, i).Await?
  {
    if AlwaysCovered(c.v, i) {
      DeliveredClaims(c.v, c.w.delivery, c.w.now);
      assert c.w.delivery.Delivered? ==> CarriedCovers(c.v, c.w.delivery.jwt, i);
    }
  }

  lemma SafeIsNeverRefused(v: Vendor, config: Config, rt: Runtime)
    requires config.block.NoBlock? && WithholdsOnlyWithholdable(rt)
    requires forall i :: i in Items(v, config) ==> Safe(v, rt, i)
    ensures NeverRefused(v, config, rt)
  {
    forall w: World | w.Attached() ensures Gate(v, config, w, rt.History()).Accepted? {
      DeliveryAlwaysHolds(v, config.block, w);
      var c := Ctx(v, Resolve(v, config.block, w).value, w, rt.History());
      forall i | i in Items(v, config) ensures !FateOf(c, i).Refuse? && !FateOf(c, i).Await? {
        SafeFate(c, rt, i);
      }
      JudgeAccepts(c, Items(v, config));
    }
  }

  /** One item that is refused, or made to wait, refuses the config. */
  lemma BadFateRefuses(v: Vendor, config: Config, w: World, rt: Runtime, i: Item)
    requires w.Attached() && config.block.NoBlock? && i in Items(v, config)
    requires var c := Ctx(v, ResolveDelivery(v, w.delivery, w.now), w, rt.History());
      FateOf(c, i).Refuse? || FateOf(c, i).Await?
    ensures !NeverRefused(v, config, rt)
  {
    DeliveryAlwaysHolds(v, config.block, w);
    JudgeAccepts(Ctx(v, ResolveDelivery(v, w.delivery, w.now), w, rt.History()), Items(v, config));
    assert !Gate(v, config, w, rt.History()).Accepted?;
  }

  /** Before any delivery, with the given bound set. */
  function Undelivered(bound: Option<set<string>>): World {
    World(Pending, bound, 0)
  }

  /** `jwt`, proven for the org it names, just before its grace ends. */
  function Carrying(v: Vendor, jwt: string): World
    requires Carried(v, jwt).Some?
  {
    var licence := Carried(v, jwt).value;
    World(
      Delivered(jwt, licence.claims.tenantSlug, Proven, false), None,
      v.graceEndsAfter(licence.claims.exp, v.graceDays(licence.role)) - 1)
  }

  lemma CarryingResolves(v: Vendor, jwt: string)
    requires Trim(jwt) != "" && Carried(v, jwt).Some?
    ensures var w := Carrying(v, jwt);
      ResolveDelivery(v, w.delivery, w.now).claims == Carried(v, jwt).value.claims
  {
  }

  lemma UnsafeIsRefused(v: Vendor, config: Config, rt: Runtime, i: Item)
    requires config.block.NoBlock? && i in Items(v, config) && !Safe(v, rt, i)
    ensures !NeverRefused(v, config, rt)
  {
    if CanBeLeftOut(v, i) {
      BadFateRefuses(v, config, Undelivered(Some({})), rt, i);
    } else if !CoveredBy(v, v.community, i) {
      BadFateRefuses(v, config, Undelivered(None), rt, i);
    } else {
      var jwt: string :| !CarriedCovers(v, jwt, i);
      CarryingResolves(v, jwt);
      BadFateRefuses(v, config, Carrying(v, jwt), rt, i);
    }
  }

  /**
   * Which runtimes no delivery, bound set or clock can get refused, for any config with no `license:` block: exactly
   * those for which every gated item is safe.
   */
  lemma NeverRefusedIff(v: Vendor, config: Config, rt: Runtime)
    requires config.block.NoBlock? && WithholdsOnlyWithholdable(rt)
    ensures NeverRefused(v, config, rt) <==> forall i :: i in Items(v, config) ==> Safe(v, rt, i)
  {
    if forall i :: i in Items(v, config) ==> Safe(v, rt, i) {
      SafeIsNeverRefused(v, config, rt);
    } else {
      var i :| i in Items(v, config) && !Safe(v, rt, i);
      UnsafeIsRefused(v, config, rt, i);
    }
  }

  /** The same of a gateway whose reload to `config` failed to build, so that it still runs what `made` was gated to. */
  lemma FailedBuildSafeIff(v: Vendor, made: Config, w: World, h: History, config: Config)
    requires Gate(v, made, w, h).Accepted? && config.block.NoBlock?
    ensures var rt := RuntimeOf(Gate(v, made, w, h).outcome);
      NeverRefused(v, config, rt) <==> forall i :: i in Items(v, config) ==> Safe(v, rt, i)
  {
    RuntimeWithholdsOnlyWithholdable(v, made, w, h);
    NeverRefusedIff(v, config, RuntimeOf(Gate(v, made, w, h).outcome));
  }

  // ----- What a gateway was at boot -----

  /** What a reload reads: the platform's count first, then its cells, and the clock. */
  datatype Reread = Reread(config: Config, generation: nat, delivery: Delivery, bound: Option<set<string>>, now: int)

  /** The world a running gateway is gated in: the platform's cells count only for one that attached when it booted. */
  function WorldOf(rt: Runtime, r: Reread): World {
    if rt.attached then World(r.delivery, r.bound, r.now) else World(Standalone, None, r.now)
  }

  function GateAtReload(v: Vendor, rt: Runtime, r: Reread): Verdict {
    match Gate(v, r.config, WorldOf(rt, r), rt.History())
    case Accepted(o) => Accepted(o.(generation := r.generation))
    case Refused(refusal) => Refused(refusal)
  }

  function Reloaded(v: Vendor, rt: Runtime, rereads: seq<Reread>): Runtime
    decreases |rereads|
  {
    if rereads == [] then rt
    else
      match GateAtReload(v, rt, rereads[0])
      case Accepted(o) => Reloaded(v, RuntimeOf(o), rereads[1..])
      case Refused(_) => Reloaded(v, rt, rereads[1..])
  }

  /** Through every run of reloads a gateway stays attached, or standalone, as it booted. */
  lemma {:induction false} AttachedAsBooted(v: Vendor, rt: Runtime, rereads: seq<Reread>)
    requires forall r :: r in rereads ==> !r.delivery.Standalone?
    ensures Reloaded(v, rt, rereads).attached == rt.attached
    decreases |rereads|
  {
    if rereads != [] {
      assert rereads[0] in rereads;
      match GateAtReload(v, rt, rereads[0])
      case Accepted(o) =>
        AcceptedIsJudged(v, rereads[0].config, WorldOf(rt, rereads[0]), rt.History());
        AttachedAsBooted(v, RuntimeOf(o), rereads[1..]);
      case Refused(_) => AttachedAsBooted(v, rt, rereads[1..]);
    }
  }

  /** A reloaded runtime is behind the platform exactly when the count moved after the reload read it. */
  lemma BehindIffCountMoved(v: Vendor, rt: Runtime, r: Reread, generation: nat)
    requires GateAtReload(v, rt, r).Accepted?
    ensures RuntimeOf(GateAtReload(v, rt, r).outcome).generation != generation <==> r.generation != generation
  {
  }
}
