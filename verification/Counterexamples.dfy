/** Runs in which the gateway does less than its documentation says, each with a concrete licence library. */
module Counterexamples {
  import opened Common
  import opened Licence
  import opened Resolution
  import opened LicenceGate
  import opened GateTheorems
  import opened Runtime
  import opened GatewayRuns
  import opened LicenceWatch
  import opened BootGate
  import opened BootWaits

  const COMMUNITY := Claims("community", 0, "", [], {}, false)

  /**
   * Every plugin is gated; the self-host plans `short` and `long` license all, and so does the cloud licence `cloud`
   * of `acme`. Their grace ends at 1100, 2100 and 2100.
   */
  const LIBRARY := Vendor(
    (id: string) => true,
    (c: Claims, id: string) => c.plan == "community",
    (c: Claims, id: string) => false,
    "coordinator",
    (c: Claims, f: Feature) => true,
    (token: string, policy: TrustPolicy) =>
      if policy == CLOUD_POLICY && token == "cloud"
      then Verified(VendorLicence(Cloud, Claims("cloud", 2000, "acme", [], {}, false)))
      else if policy == SELF_HOST_POLICY
      then Verified(VendorLicence(SelfHost, Claims(token, if token == "short" then 1000 else 2000, "", [], {}, false)))
      else Failed(true, "another role"),
    COMMUNITY,
    {},
    (role: Role) => 100,
    (exp: int, days: int) => exp + days,
    (exp: int, now: int) => Current,
    0,
    1000000)

  function Holding(plugins: seq<string>): Config {
    Config(
      seq(|plugins|, i requires 0 <= i < |plugins| => PluginEntry(plugins[i], None, false)),
      NoBlock, false, false, None, None)
  }

  function Sent(plan: string, now: int): World {
    World(Delivered(plan, "acme", Unproven, false), None, now)
  }

  lemma OnePlugin(id: string)
    ensures Items(LIBRARY, Holding([id])) == [Plugin(id)]
  {
    var plugins := Holding([id]).plugins;
    assert plugins == [PluginEntry(id, None, false)];
    assert GatedPlugins(LIBRARY, plugins) == [Plugin(id)] + GatedPlugins(LIBRARY, plugins[1..]);
    assert LicensedSurfaces(Holding([id])) == [];
  }

  lemma SentResolves(plan: string, now: int)
    requires plan == "short" || plan == "long"
    ensures var ends := if plan == "short" then 1100 else 2100;
      var r := Resolve(LIBRARY, NoBlock, Sent(plan, now));
      && r.Ok? && r.value.hold.Some? && r.value.status.source.FromPlatform?
      && (r.value.status.state.IsLapsed? <==> now >= ends)
      && r.value.claims.plan == (if now < ends then plan else "community")
      && r.value.status.graceEndsAt == Some(ends)
  {
    assert Trim("short") == "short" && Trim("long") == "long";
  }

  lemma JudgeOne(c: Ctx, x: Item)
    requires FateOf(c, x).Admit? || Falls(c, x, IsWithheld)
    ensures var verdict := Judge(c, [x]);
      && verdict.Accepted?
      && verdict.outcome.admitted == (if FateOf(c, x).Admit? then {x.Key()} else {})
      && verdict.outcome.withheld == AsWithheld(if FateOf(c, x).Admit? then [] else [x])
      && verdict.outcome.held == []
      && verdict.outcome.countsUntil == CountsUntil(c.w, c.resolved.status.source)
  {
    JudgeAccepts(c, [x]);
    assert [x][..0] == [];
    assert forall b :: Select(c, [x], b) == if Falls(c, x, b) then [x] else [];
  }

  /** What the one-plugin config runs on in a sent world. */
  lemma OnePluginRuns(id: string, plan: string, now: int, h: History)
    requires plan == "short" || plan == "long"
    requires CanBeWithheld(Plugin(id))
    ensures var ends := if plan == "short" then 1100 else 2100;
      var verdict := Gate(LIBRARY, Holding([id]), Sent(plan, now), h);
      && verdict.Accepted?
      && verdict.outcome.withheld == (if now < ends then [] else [Withheld(id, ShapeOf(id).WithholdAndHoldTools?)])
      && verdict.outcome.held == []
      && verdict.outcome.admitted == (if now < ends then {Plugin(id).Key()} else {})
      && LapsesAt(verdict.outcome) == (if now < ends then Some(ends) else None)
  {
    OnePlugin(id);
    SentResolves(plan, now);
    var c := Ctx(LIBRARY, Resolve(LIBRARY, NoBlock, Sent(plan, now)).value, Sent(plan, now), h);
    var ends := if plan == "short" then 1100 else 2100;
    assert FateOf(c, Plugin(id)) == if now < ends then Admit else TakeBack;
    JudgeOne(c, Plugin(id));
  }

  const KAFKA := "dev.mcpg.backend.kafka"
  const REDIS := "dev.mcpg.cluster.redis"

  lemma KafkaShape()
    ensures ShapeOf(KAFKA).Withhold?
  {
    assert KAFKA == FIRST_PARTY_ID_PREFIX + "backend.kafka";
    assert "backend.kafka"[..8] == "backend." && "backend.kafka"[0] == 'b';
  }

  lemma RedisShape()
    ensures ShapeOf(REDIS).MustWait?
  {
    assert REDIS == FIRST_PARTY_ID_PREFIX + "cluster.redis";
    assert "cluster.redis"[0] == 'c' && "cluster.redis"[1] == 'l';
  }

  /**
   * A gateway boots on a licence, its renewal arrives and changes nothing, and the old timer fires. From then on
   * no tick is due, although the renewed licence's grace ends and the gate would then withhold what still runs.
   */
  lemma RenewalOutlivesItsTimer()
    ensures var config := Holding([KAFKA]);
      var booted := Gate(LIBRARY, config, Sent("short", 0), History({}, [], false));
      booted.Accepted? && (
        var rt := RuntimeOf(booted.outcome.(generation := 1));
        var renewed := Gate(LIBRARY, config, Sent("long", 500), rt.History());
        var landing := Landing(LIBRARY, config, Sent("long", 2100));
        && renewed.Accepted? && !RegateChanges(rt, renewed.outcome)
        && LapsesAt(renewed.outcome) == Some(2100)
        && (forall t :: !Due(rt, Ticks(rt, Watch(None, None), 2, [500, 1100]), 2, t))
        && Plugin(KAFKA).Key() in rt.admitted
        && landing.Accepted? && Plugin(KAFKA).Key() !in landing.outcome.admitted)
  {
    KafkaShape();
    var config := Holding([KAFKA]);
    OnePluginRuns(KAFKA, "short", 0, History({}, [], false));
    var booted := Gate(LIBRARY, config, Sent("short", 0), History({}, [], false));
    var rt := RuntimeOf(booted.outcome.(generation := 1));
    OnePluginRuns(KAFKA, "long", 500, rt.History());
    OnePluginRuns(KAFKA, "long", 2100, RESTARTED);
    WithheldNamesMatch(LIBRARY, config, Sent("long", 500), rt.History());
    assert 1100 in [500, 1100];
    forall t ensures !Due(rt, Ticks(rt, Watch(None, None), 2, [500, 1100]), 2, t) {
      RetainedTimerDueIff(rt, Watch(None, None), 2, [500, 1100], t);
    }
  }

  // ----- A kept runtime with no timer -----

  const OWN := VendorLicence(SelfHost, Claims("own", 9000, "", [], {}, false))

  /** One plugin, under a licence of the gateway's own. */
  function Owning(id: string): Config {
    Holding([id]).(block := Block(false, TokenVerified(OWN)))
  }

  const WAITING := World(Pending, None, 0)

  function Proved(now: int): World {
    World(Delivered("cloud", "acme", Proven, false), None, now)
  }

  lemma OwnResolves(id: string)
    ensures var r := Resolve(LIBRARY, Owning(id).block, WAITING);
      r.Ok? && r.value.claims.plan == "own" && r.value.status.source.FromBlock?
  {
  }

  lemma ProvedResolves(block: LicenceBlock, now: int)
    ensures var r := Resolve(LIBRARY, block, Proved(now));
      && r.Ok? && r.value.hold.Some? && r.value.status.source.FromPlatform?
      && (r.value.status.state.IsLapsed? <==> now >= 2100)
      && r.value.claims.plan == (if now < 2100 then "cloud" else "community")
      && r.value.status.graceEndsAt == Some(2100)
  {
    assert Trim("cloud") == "cloud";
  }

  lemma OwnPlugin(id: string)
    ensures Items(LIBRARY, Owning(id)) == [Plugin(id)]
  {
    OnePlugin(id);
  }

  lemma OwnRuns(h: History)
    ensures var verdict := Gate(LIBRARY, Owning(KAFKA), WAITING, h);
      && verdict.Accepted? && verdict.outcome.withheld == [] && verdict.outcome.held == []
      && verdict.outcome.admitted == {Plugin(KAFKA).Key()} && LapsesAt(verdict.outcome).None?
  {
    OwnPlugin(KAFKA);
    OwnResolves(KAFKA);
    var c := Ctx(LIBRARY, Resolve(LIBRARY, Owning(KAFKA).block, WAITING).value, WAITING, h);
    assert FateOf(c, Plugin(KAFKA)).Admit?;
    JudgeOne(c, Plugin(KAFKA));
  }

  lemma ProvedFate(now: int, h: History)
    ensures Resolve(LIBRARY, Owning(KAFKA).block, Proved(now)).Ok?
    ensures FateOf(Ctx(LIBRARY, Resolve(LIBRARY, Owning(KAFKA).block, Proved(now)).value, Proved(now), h), Plugin(KAFKA))
         == if now < 2100 then Admit else TakeBack
  {
    KafkaShape();
    ProvedResolves(Owning(KAFKA).block, now);
  }

  lemma ProvedRuns(now: int, h: History)
    ensures var verdict := Gate(LIBRARY, Owning(KAFKA), Proved(now), h);
      && verdict.Accepted? && verdict.outcome.held == []
      && (now < 2100 ==> verdict.outcome.withheld == [])
      && verdict.outcome.admitted == (if now < 2100 then {Plugin(KAFKA).Key()} else {})
      && LapsesAt(verdict.outcome) == (if now < 2100 then Some(2100) else None)
  {
    KafkaShape();
    OwnPlugin(KAFKA);
    ProvedResolves(Owning(KAFKA).block, now);
    ProvedFate(now, h);
    JudgeOne(Ctx(LIBRARY, Resolve(LIBRARY, Owning(KAFKA).block, Proved(now)).value, Proved(now), h), Plugin(KAFKA));
  }

  /**
   * A gateway boots on its own licence, so no re-gate is scheduled. A proven delivery that covers the same plugin takes
   * over and changes nothing. From the grace end of that delivery on no tick is due, although the gate would withhold.
   */
  lemma DeliveryTakesOverWithoutTimer()
    ensures var booted := Gate(LIBRARY, Owning(KAFKA), WAITING, History({}, [], false));
      booted.Accepted? && (
        var rt := RuntimeOf(booted.outcome.(generation := 1));
        var taken := Gate(LIBRARY, Owning(KAFKA), Proved(500), rt.History());
        var landing := Landing(LIBRARY, Owning(KAFKA), Proved(2100));
        && rt.lapsesAt.None?
        && taken.Accepted? && !RegateChanges(rt, taken.outcome) && LapsesAt(taken.outcome) == Some(2100)
        && (forall t :: !Due(rt, Ticks(rt, Watch(None, None), 2, [500]), 2, t))
        && Plugin(KAFKA).Key() in rt.admitted
        && landing.Accepted? && Plugin(KAFKA).Key() !in landing.outcome.admitted)
  {
    var booted := Gate(LIBRARY, Owning(KAFKA), WAITING, History({}, [], false));
    OwnRuns(History({}, [], false));
    var rt := RuntimeOf(booted.outcome.(generation := 1));
    ProvedRuns(500, rt.History());
    ProvedRuns(2100, RESTARTED);
    WithheldNamesMatch(LIBRARY, Owning(KAFKA), Proved(500), rt.History());
    forall t ensures !Due(rt, Ticks(rt, Watch(None, None), 2, [500]), 2, t) {
      RetainedTimerDueIff(rt, Watch(None, None), 2, [500], t);
    }
  }

  const NOTHING_RAN := History({}, [], false)

  lemma EmptyConfigBoots()
    ensures var booted := Gate(LIBRARY, Holding([]), Sent("short", 0), NOTHING_RAN);
      booted.Accepted? && RuntimeOf(booted.outcome).History() == NOTHING_RAN
  {
    SentResolves("short", 0);
    assert Items(LIBRARY, Holding([])) == [];
    JudgeAccepts(Ctx(LIBRARY, Resolve(LIBRARY, NoBlock, Sent("short", 0)).value, Sent("short", 0), NOTHING_RAN), []);
  }

  lemma RedisFate(now: int)
    ensures var r := Resolve(LIBRARY, NoBlock, Sent("short", now));
      r.Ok? && FateOf(Ctx(LIBRARY, r.value, Sent("short", now), NOTHING_RAN), Plugin(REDIS))
        == if now < 1100 then Admit else Await
  {
    RedisShape();
    SentResolves("short", now);
  }

  /** A coordinator loads while the licence covers it, and on a gateway that never ran it waits once it lapsed. */
  lemma RedisNeedsItsLicence(now: int)
    ensures Gate(LIBRARY, Holding([REDIS]), Sent("short", now), NOTHING_RAN).Accepted? <==> now < 1100
  {
    OnePlugin(REDIS);
    RedisFate(now);
    JudgeAccepts(
      Ctx(LIBRARY, Resolve(LIBRARY, NoBlock, Sent("short", now)).value, Sent("short", now), NOTHING_RAN),
      [Plugin(REDIS)]);
  }

  /**
   * A reload passes the gate and fails to build. Its config is the base from then on, while the runtime is the
   * one before it, and a delivery that covers less refuses that base.
   */
  lemma FailedBuildRefusesItself()
    ensures var booted := Gate(LIBRARY, Holding([]), Sent("short", 0), NOTHING_RAN);
      booted.Accepted? && (
        var g := Step(LIBRARY, Gateway(Holding([]), RuntimeOf(booted.outcome)),
                      Reload(Holding([REDIS]), Sent("short", 0), false));
        && g.base == Holding([REDIS]) && g.base.block.NoBlock?
        && Gate(LIBRARY, g.base, Sent("short", 1100), g.runtime.History()).Refused?)
  {
    EmptyConfigBoots();
    RedisNeedsItsLicence(0);
    RedisNeedsItsLicence(1100);
  }

  /** Nothing delivered yet; the control plane bound the gateway to one of two plugins. */
  const HALF_BOUND := View(0, 0, None, 1, World(Pending, Some({KAFKA}), 0), true, false)

  lemma TwoPlugins(a: string, b: string)
    ensures Plugin(a) in Items(LIBRARY, Holding([a, b])) && Plugin(b) in Items(LIBRARY, Holding([a, b]))
  {
    var plugins := Holding([a, b]).plugins;
    assert plugins[0] in plugins && plugins[1] in plugins;
  }

  lemma BothAreCalled()
    ensures KAFKA != REDIS && KAFKA != LIBRARY.coordinator && REDIS != LIBRARY.coordinator
  {
    assert KAFKA[9] != REDIS[9] && KAFKA[0] != LIBRARY.coordinator[0] && REDIS[0] != LIBRARY.coordinator[0];
  }

  lemma HalfBoundLeavesOut(config: Config)
    ensures StandingIn(LIBRARY, config, HALF_BOUND.w, Plugin(REDIS)).LeftOut?
  {
    BothAreCalled();
  }

  lemma HalfBoundUncovered(config: Config)
    requires config.block.NoBlock?
    ensures StandingIn(LIBRARY, config, HALF_BOUND.w, Plugin(KAFKA)).Uncovered?
  {
    assert Resolve(LIBRARY, NoBlock, HALF_BOUND.w).value.claims == COMMUNITY;
  }

  lemma HalfBoundCovered(config: Config, w: World)
    requires config.block.NoBlock? && w == HALF_BOUND.w.(delivery := Sent("long", 0).delivery)
    ensures StandingIn(LIBRARY, config, w, Plugin(KAFKA)).Covered?
  {
    SentResolves("long", 0);
    assert Resolve(LIBRARY, NoBlock, w) == Resolve(LIBRARY, NoBlock, Sent("long", 0));
    assert ClaimsFor(LIBRARY, config, w).plan == "long";
    assert "long" != "community" by { assert "long"[0] != "community"[0]; }
  }

  /**
   * A gateway restarts without a kept licence and is sent its bound set first. That set leaves a plugin out, so the boot
   * does not wait for the licence that would cover the other.
   */
  lemma HalfBoundRestartDoesNotWait(config: Config)
    requires config == Holding([KAFKA, REDIS])
    ensures !StillOpen(LIBRARY, config, HALF_BOUND)
    ensures StandingIn(LIBRARY, config, HALF_BOUND.w, Plugin(KAFKA)).Uncovered?
    ensures StandingIn(LIBRARY, config, HALF_BOUND.w.(delivery := Sent("long", 0).delivery), Plugin(KAFKA)).Covered?
  {
    TwoPlugins(KAFKA, REDIS);
    HalfBoundLeavesOut(config);
    HalfBoundUncovered(config);
    HalfBoundCovered(config, HALF_BOUND.w.(delivery := Sent("long", 0).delivery));
    HalfBoundWaitsIff(LIBRARY, config, HALF_BOUND, Plugin(KAFKA), Plugin(REDIS));
  }

  lemma HalfBoundWaitsIff(v: Vendor, config: Config, view: View, uncovered: Item, leftOut: Item)
    requires view.restarted && view.w.delivery.Pending? && !view.boundCached
    requires uncovered in Items(v, config) && StandingIn(v, config, view.w, uncovered).Uncovered?
    requires leftOut in Items(v, config) && StandingIn(v, config, view.w, leftOut).LeftOut?
    ensures !StillOpen(v, config, view)
  {
    UndeliveredRestartWaitsIff(v, config, view);
  }
}
