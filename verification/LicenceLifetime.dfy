/** How answers depend on where a licence came from, on the clock, and on a restart. */
module LicenceLifetime {
  import opened Common
  import opened Licence
  import opened Resolution
  import opened LicenceGate
  import opened GateTheorems
  import opened Runtime
  import opened GatewayRuns

  // ----- Where a licence comes from -----

  /** On a delivery mcpg.cloud proved, the config's `license:` block changes nothing at all. */
  lemma BlockIgnoredUnderProof(v: Vendor, config: Config, block: LicenceBlock, w: World, h: History)
    requires w.delivery.ProvenAt(w.now)
    ensures Gate(v, config, w, h) == Gate(v, config.(block := block), w, h)
  {
    assert Items(v, config) == Items(v, config.(block := block));
  }

  /** Two licence libraries that differ only in which cloud licence `token` is. */
  ghost predicate DifferInCloudLicence(v: Vendor, v': Vendor, token: string) {
    && v' == v.(verify := v'.verify)
    && v.verify(token, CLOUD_POLICY).Verified? && v'.verify(token, CLOUD_POLICY).Verified?
    && forall t, p :: t != token || p != CLOUD_POLICY ==> v.verify(t, p) == v'.verify(t, p)
  }

  /** A cloud licence counts for this delivery: mcpg.cloud proved it, and it names the enrolled org. */
  predicate CloudCounts(v: Vendor, w: World) {
    && w.delivery.ProvenAt(w.now)
    && (var verified := v.verify(Trim(w.delivery.jwt), CLOUD_POLICY);
        verified.Verified? && verified.licence.claims.tenantSlug == w.delivery.org)
  }

  /** The org the cloud licence `token` names. */
  function TenantOf(v: Vendor, token: string): string
    requires v.verify(token, CLOUD_POLICY).Verified?
  {
    v.verify(token, CLOUD_POLICY).licence.claims.tenantSlug
  }

  /**
   * Unless it is proven and for the enrolled org, what a cloud licence grants has no influence on any answer: only the
   * org it names can show, in the reason why items wait.
   */
  lemma CloudLicenceNonInterference(v: Vendor, v': Vendor, config: Config, w: World, h: History)
    requires w.delivery.Delivered?
    requires DifferInCloudLicence(v, v', Trim(w.delivery.jwt))
    requires !CloudCounts(v, w) && !CloudCounts(v', w)
    ensures Gate(v, config, w, h).Accepted? <==> Gate(v', config, w, h).Accepted?
    ensures Gate(v, config, w, h).Accepted? ==>
      var o, o' := Gate(v, config, w, h).outcome, Gate(v', config, w, h).outcome;
      && SameItems(o, o') && o.status == o'.status && o.countsUntil == o'.countsUntil
      && (o.hold.Some? <==> o'.hold.Some?)
    ensures TenantOf(v, Trim(w.delivery.jwt)) == TenantOf(v', Trim(w.delivery.jwt)) ==>
      Gate(v, config, w, h) == Gate(v', config, w, h)
  {
    UncountedCloudResolvesAlike(v, v', config.block, w);
    GatedPluginsAgree(v, v', config.plugins);
    JudgedAlike(CtxFor(v, config, w, h), CtxFor(v', config, w, h), Items(v, config));
  }

  lemma UncountedCloudResolvesAlike(v: Vendor, v': Vendor, block: LicenceBlock, w: World)
    requires w.delivery.Delivered?
    requires DifferInCloudLicence(v, v', Trim(w.delivery.jwt))
    requires !CloudCounts(v, w) && !CloudCounts(v', w)
    ensures var r, r' := Resolve(v, block, w), Resolve(v', block, w);
      && (r.Ok? <==> r'.Ok?)
      && (r.Err? ==> r == r')
      && (r.Ok? ==> r.value.(hold := None) == r'.value.(hold := None))
      && (r.Ok? ==> (r.value.hold.Some? <==> r'.value.hold.Some?))
      && (TenantOf(v, Trim(w.delivery.jwt)) == TenantOf(v', Trim(w.delivery.jwt)) ==> r == r')
  {
    UncountedCloudResolves(v, v', w);
    assert ResolveBlock(v, block, w.now) == ResolveBlock(v', block, w.now);
  }

  lemma UncountedCloudResolves(v: Vendor, v': Vendor, w: World)
    requires w.delivery.Delivered?
    requires DifferInCloudLicence(v, v', Trim(w.delivery.jwt))
    requires !CloudCounts(v, w) && !CloudCounts(v', w)
    ensures var r, r' := ResolveDelivery(v, w.delivery, w.now), ResolveDelivery(v', w.delivery, w.now);
      && r.(hold := None) == r'.(hold := None)
      && r.hold.Some? && r'.hold.Some?
      && (r.hold.value.MayResolveByDelivery() <==> r'.hold.value.MayResolveByDelivery())
      && (TenantOf(v, Trim(w.delivery.jwt)) == TenantOf(v', Trim(w.delivery.jwt)) ==> r == r')
  {
  }

  /** Two contexts that differ in what verifies, and perhaps in the words of a hold. */
  ghost predicate AlikeButVerify(c: Ctx, d: Ctx) {
    && d.v == c.v.(verify := d.v.verify) && d.w == c.w && d.h == c.h
    && c.resolved.(hold := None) == d.resolved.(hold := None) && (c.resolved.hold.Some? <==> d.resolved.hold.Some?)
  }

  lemma FateAgrees(c: Ctx, d: Ctx, i: Item)
    requires AlikeButVerify(c, d)
    ensures FateOf(c, i) == FateOf(d, i)
    ensures StandingOf(c.v, c.resolved.claims, c.w.bound, i) == StandingOf(d.v, d.resolved.claims, d.w.bound, i)
    ensures FindingFor(c, i) == FindingFor(d, i)
  {
  }

  lemma FindingsAgree(c: Ctx, d: Ctx, items: seq<Item>)
    requires AlikeButVerify(c, d)
    ensures AsFindings(c, items) == AsFindings(d, items)
  {
    forall k | 0 <= k < |items| ensures AsFindings(c, items)[k] == AsFindings(d, items)[k] {
      FateAgrees(c, d, items[k]);
    }
  }

  lemma WaitingAgrees(c: Ctx, d: Ctx, items: seq<Item>, s: Standing)
    requires AlikeButVerify(c, d)
    ensures TakesBack(c, items, s) == TakesBack(d, items, s)
  {
    forall i { FateAgrees(c, d, i); }
    if TakesBack(c, items, s) {
      var i :| i in items && FateOf(c, i).TakeBack? && StandingOf(c.v, c.resolved.claims, c.w.bound, i) == s;
      assert FateOf(d, i).TakeBack?;
    }
    if TakesBack(d, items, s) {
      var i :| i in items && FateOf(d, i).TakeBack? && StandingOf(d.v, d.resolved.claims, d.w.bound, i) == s;
      assert FateOf(c, i).TakeBack?;
    }
  }

  lemma BucketsAgree(c: Ctx, d: Ctx, items: seq<Item>)
    requires AlikeButVerify(c, d)
    ensures forall b :: Select(c, items, b) == Select(d, items, b)
    ensures LoadedKeys(c, items) == LoadedKeys(d, items)
  {
    forall i { FateAgrees(c, d, i); }
    forall b { SelectAgrees(c, d, items, b); }
  }

  lemma JudgedAlike(c: Ctx, d: Ctx, items: seq<Item>)
    requires AlikeButVerify(c, d)
    ensures Judge(c, items).Accepted? <==> Judge(d, items).Accepted?
    ensures Judge(c, items).Accepted? ==>
      var o, o' := Judge(c, items).outcome, Judge(d, items).outcome;
      && SameItems(o, o') && o.status == o'.status && o.countsUntil == o'.countsUntil
      && (o.hold.Some? <==> o'.hold.Some?)
    ensures c.resolved == d.resolved ==> Judge(c, items) == Judge(d, items)
  {
    BucketsAgree(c, d, items);
    FindingsAgree(c, d, Select(c, items, IsRefused));
    FindingsAgree(c, d, Select(c, items, IsAwaited));
    WaitingAgrees(c, d, items, Uncovered);
    WaitingAgrees(c, d, items, LeftOut);
  }

  lemma {:induction false} GatedPluginsAgree(v: Vendor, v': Vendor, plugins: seq<PluginEntry>)
    requires v.gated == v'.gated
    ensures GatedPlugins(v, plugins) == GatedPlugins(v', plugins)
  {
    if plugins != [] {
      GatedPluginsAgree(v, v', plugins[1..]);
    }
  }

  /** A counting cloud licence is what the gateway runs on, until its grace ends. */
  lemma CountingCloudLicenceRules(v: Vendor, config: Config, w: World)
    requires CloudCounts(v, w) && Trim(w.delivery.jwt) != ""
    ensures var licence := v.verify(Trim(w.delivery.jwt), CLOUD_POLICY).licence;
      ClaimsFor(v, config, w) ==
        if w.now < v.graceEndsAfter(licence.claims.exp, v.graceDays(licence.role)) then licence.claims else v.community
  {
  }

  // ----- Restarts -----

  /**
   * How a delivery comes back from the state directory: one this process was sent comes back proven while the window
   * of its proof holds, else only cached; one already read back counts as it did.
   */
  predicate ReadBack(before: Delivery, after: Delivery, now: int) {
    && before.Delivered? && after.Delivered?
    && after.jwt == before.jwt && after.org == before.org
    && (
      || (before.origin.Proven? && after.origin.CachedProven? && now < after.origin.until)
      || (before.origin.Unproven? && after.origin.Cached?)
      || (before.origin.IsCached() && after.origin.IsCached() && after.origin.At(now) == before.origin.At(now)))
  }

  lemma ReadBackResolves(v: Vendor, before: Delivery, after: Delivery, now: int)
    requires ReadBack(before, after, now)
    ensures ResolveDelivery(v, before, now).claims == ResolveDelivery(v, after, now).claims
  {
  }

  /** A gateway on a delivery it read back always has a reason why the rest waits, whatever its block says. */
  lemma CachedAlwaysHolds(v: Vendor, block: LicenceBlock, w: World)
    requires w.delivery.Delivered? && w.delivery.origin.IsCached()
    ensures Resolve(v, block, w).Ok? && Resolve(v, block, w).value.hold.Some?
  {
  }

  lemma CachedReadBackResolves(v: Vendor, block: LicenceBlock, w: World, after: Delivery)
    requires ReadBack(w.delivery, after, w.now) && w.delivery.origin.IsCached()
    ensures var r, r' := Resolve(v, block, w), Resolve(v, block, w.(delivery := after));
      r.Ok? && r'.Ok? && r.value.claims == r'.value.claims
  {
    ReadBackResolves(v, w.delivery, after, w.now);
  }

  /** A restart that reads its delivery back is never refused, and runs what the gateway before it ran. */
  lemma RestartLands(v: Vendor, config: Config, w: World, h: History, readBack: Delivery)
    requires Gate(v, config, w, h).Accepted?
    requires ReadBack(w.delivery, readBack, w.now)
    requires w.delivery.origin.Unproven? ==> config.block.NoBlock?
    ensures var landing := Landing(v, config, w.(delivery := readBack));
      landing.Accepted? && SameItems(Gate(v, config, w, h).outcome, landing.outcome)
  {
    var w' := w.(delivery := readBack);
    AcceptedIsLanding(v, config, w, h);
    if w.delivery.origin.IsCached() {
      CachedAlwaysHolds(v, config.block, w);
      CachedAlwaysHolds(v, config.block, w');
      CachedReadBackResolves(v, config.block, w, readBack);
    } else {
      DeliveryAlwaysHolds(v, config.block, w);
      DeliveryAlwaysHolds(v, config.block, w');
      ReadBackResolves(v, w.delivery, readBack, w.now);
    }
    LandingAgrees(v, config, config, w, w');
  }

  // ----- The self-scheduled re-gate -----

  /** Until the earlier of its window's end and its grace's end, a delivery resolves to the same claims. */
  lemma ClaimsUntilLapse(v: Vendor, delivery: Delivery, now: int, later: int, countsUntil: Option<int>)
    requires v.ClockTime(now) && v.ClockTime(later) && now <= later
    requires delivery.Delivered?
    requires countsUntil == CountsUntil(World(delivery, None, now), FromPlatform)
    requires !ResolveDelivery(v, delivery, now).status.state.IsLapsed?
    requires var lapse := Earliest(ResolveDelivery(v, delivery, now).status.graceEndsAt, countsUntil);
      lapse.Some? ==> later < lapse.value
    ensures ResolveDelivery(v, delivery, now).claims == ResolveDelivery(v, delivery, later).claims
    ensures ResolveDelivery(v, delivery, now).hold == ResolveDelivery(v, delivery, later).hold
  {
    assert delivery.origin.At(now) == delivery.origin.At(later);
  }

  /** The licence an outcome names as the platform's is the delivered one. */
  lemma PlatformSourceIsDelivery(v: Vendor, block: LicenceBlock, w: World)
    requires Resolve(v, block, w).Ok? && Resolve(v, block, w).value.status.source.FromPlatform?
    ensures w.delivery.Delivered? && Resolve(v, block, w).value == ResolveDelivery(v, w.delivery, w.now)
    ensures w.delivery.ProvenAt(w.now) || block.NoBlock? || ResolveBlock(v, block, w.now) == Ok(None)
  {
  }

  lemma PlatformResolvesLater(v: Vendor, block: LicenceBlock, w: World, later: int)
    requires Resolve(v, block, w).Ok? && Resolve(v, block, w).value.status.source.FromPlatform?
    requires w.delivery.Delivered? && w.delivery.origin.At(w.now) == w.delivery.origin.At(later)
    ensures Resolve(v, block, w.(now := later)) == Ok(ResolveDelivery(v, w.delivery, later))
  {
    PlatformSourceIsDelivery(v, block, w);
    assert ResolveBlock(v, block, w.now) == Ok(None) ==> ResolveBlock(v, block, later) == Ok(None);
  }

  /** An outcome that schedules a re-gate rests on the delivered licence. */
  lemma ScheduledOutcome(v: Vendor, config: Config, w: World, h: History)
    requires Gate(v, config, w, h).Accepted?
    requires Gate(v, config, w, h).outcome.status.source.FromPlatform?
    ensures var o := Gate(v, config, w, h).outcome; var r := ResolveDelivery(v, w.delivery, w.now);
      && w.delivery.Delivered? && Resolve(v, config.block, w) == Ok(r)
      && o.status.state == r.status.state && o.status.graceEndsAt == r.status.graceEndsAt
      && o.status.source == r.status.source
      && o.countsUntil == CountsUntil(w, FromPlatform)
  {
    PlatformSourceIsDelivery(v, config.block, w);
  }

  lemma SameClaimsUntilLapse(v: Vendor, block: LicenceBlock, w: World, later: int)
    requires v.ClockTime(w.now) && v.ClockTime(later) && w.now <= later
    requires w.delivery.Delivered? && Resolve(v, block, w) == Ok(ResolveDelivery(v, w.delivery, w.now))
    requires var status := ResolveDelivery(v, w.delivery, w.now).status;
      && status.source.FromPlatform? && !status.state.IsLapsed?
      && var lapse := Earliest(status.graceEndsAt, CountsUntil(w, FromPlatform)); lapse.Some? ==> later < lapse.value
    ensures var r, r' := Resolve(v, block, w), Resolve(v, block, w.(now := later));
      r'.Ok? && r.value.claims == r'.value.claims && r.value.hold == r'.value.hold && r.value.hold.Some?
  {
    ClaimsUntilLapse(v, w.delivery, w.now, later, CountsUntil(w, FromPlatform));
    assert w.delivery.origin.At(w.now) == w.delivery.origin.At(later);
    PlatformResolvesLater(v, block, w, later);
  }

  /** Before `t`, if the gate schedules itself for `t`, a restart lands where the gateway is. */
  lemma LandingUntilLapse(v: Vendor, config: Config, w: World, h: History, later: int)
    requires Gate(v, config, w, h).Accepted?
    requires LapsesAt(Gate(v, config, w, h).outcome).Some?
    requires v.ClockTime(w.now) && v.ClockTime(later)
    requires w.now <= later < LapsesAt(Gate(v, config, w, h).outcome).value
    ensures var landing := Landing(v, config, w.(now := later)); var o := Gate(v, config, w, h).outcome;
      landing.Accepted? && SameItems(o, landing.outcome) && o.hold == landing.outcome.hold
  {
    var w' := w.(now := later);
    ScheduledOutcome(v, config, w, h);
    SameClaimsUntilLapse(v, config.block, w, later);
    AcceptedIsLanding(v, config, w, h);
    LandingAgrees(v, config, config, w, w');
    LandingHoldAgrees(v, config, w, w');
  }

  lemma HeldAccepted(v: Vendor, config: Config, w: World, rt: Runtime)
    requires w.Attached() && Covers(v, config, rt)
    requires Resolve(v, config.block, w).Ok? && Resolve(v, config.block, w).value.hold.Some?
    ensures Gate(v, config, w, rt.History()).Accepted?
    ensures Gate(v, config, w, rt.History()) == Landing(v, config, w)
  {
    RegateAcceptedIff(v, config, w, rt);
    AcceptedIsLanding(v, config, w, rt.History());
  }

  /** The same items, withheld and held for the same reason, are no change. */
  lemma SameItemsNoChange(v: Vendor, config: Config, w: World, w': World, h: History, h': History)
    requires Gate(v, config, w, h).Accepted? && Gate(v, config, w', h').Accepted?
    requires SameItems(Gate(v, config, w, h).outcome, Gate(v, config, w', h').outcome)
    requires Gate(v, config, w, h).outcome.hold == Gate(v, config, w', h').outcome.hold
    ensures !RegateChanges(RuntimeOf(Gate(v, config, w, h).outcome), Gate(v, config, w', h').outcome)
  {
    WithheldNamesMatch(v, config, w, h);
    WithheldNamesMatch(v, config, w', h');
  }

  /** If the gate schedules itself for `t`, no re-gate of the running gateway before `t` changes anything. */
  lemma RegateNeverLate(v: Vendor, config: Config, w: World, h: History, later: int)
    requires Gate(v, config, w, h).Accepted?
    requires LapsesAt(Gate(v, config, w, h).outcome).Some?
    requires v.ClockTime(w.now) && v.ClockTime(later)
    requires w.now <= later < LapsesAt(Gate(v, config, w, h).outcome).value
    ensures var rt := RuntimeOf(Gate(v, config, w, h).outcome);
      var again := Gate(v, config, w.(now := later), rt.History());
      && again.Accepted? && again == Landing(v, config, w.(now := later))
      && SameItems(Gate(v, config, w, h).outcome, again.outcome)
      && !RegateChanges(rt, again.outcome)
  {
    var rt := RuntimeOf(Gate(v, config, w, h).outcome);
    ScheduledOutcome(v, config, w, h);
    SameClaimsUntilLapse(v, config.block, w, later);
    LandingUntilLapse(v, config, w, h, later);
    AcceptedCovers(v, config, w, h);
    HeldAccepted(v, config, w.(now := later), rt);
    SameItemsNoChange(v, config, w, w.(now := later), h, rt.History());
  }

  /** A lapsed delivery grants nothing past the community tier, then or later. */
  lemma LapsedStaysLapsed(v: Vendor, delivery: Delivery, now: int, later: int)
    requires now <= later
    requires ResolveDelivery(v, delivery, now).status.state.IsLapsed?
    ensures ResolveDelivery(v, delivery, now).claims == v.community == ResolveDelivery(v, delivery, later).claims
  {
  }

  /** What is covered is loaded. */
  lemma CoveredIsLoaded(v: Vendor, config: Config, w: World, h: History, item: Item)
    requires Gate(v, config, w, h).Accepted?
    requires item in Items(v, config) && StandingIn(v, config, w, item).Covered?
    ensures item.Key() in Gate(v, config, w, h).outcome.admitted
  {
  }

  /** With no `license:` block of its own, the gateway reports the standing of its delivery. */
  lemma DeliveryOutcome(v: Vendor, config: Config, w: World, h: History)
    requires w.Attached() && config.block.NoBlock? && Gate(v, config, w, h).Accepted?
    ensures var o := Gate(v, config, w, h).outcome; var status := ResolveDelivery(v, w.delivery, w.now).status;
      && o.status.state == status.state && o.status.source == status.source
      && o.status.graceEndsAt == status.graceEndsAt && o.countsUntil == CountsUntil(w, status.source)
  {
    DeliveryAlwaysHolds(v, config.block, w);
  }

  /** A delivery with nothing to lapse, or already lapsed, resolves to the same claims ever after. */
  lemma NoLapseSameClaims(v: Vendor, w: World, later: int)
    requires w.Attached() && v.ClockTime(w.now) && v.ClockTime(later) && w.now <= later
    requires var status := ResolveDelivery(v, w.delivery, w.now).status;
      status.state.IsLapsed? || !status.source.FromPlatform?
      || Earliest(status.graceEndsAt, CountsUntil(w, FromPlatform)).None?
    ensures ResolveDelivery(v, w.delivery, w.now).claims == ResolveDelivery(v, w.delivery, later).claims
  {
    if ResolveDelivery(v, w.delivery, w.now).status.state.IsLapsed? {
      LapsedStaysLapsed(v, w.delivery, w.now, later);
    } else if w.delivery.Delivered? {
      ClaimsUntilLapse(v, w.delivery, w.now, later, CountsUntil(w, FromPlatform));
    }
  }

  /** The gateway has no licence of its own, or runs on a delivered one that has not lapsed. */
  predicate RestsOnDelivery(config: Config, o: Outcome) {
    config.block.NoBlock? || (o.status.source.FromPlatform? && !o.status.state.IsLapsed?)
  }

  /** Before the scheduled re-gate, or where none is scheduled, the passing of time changes no claim. */
  lemma SameClaimsBeforeTimer(v: Vendor, config: Config, w: World, h: History, later: int)
    requires w.Attached() && Gate(v, config, w, h).Accepted?
    requires RestsOnDelivery(config, Gate(v, config, w, h).outcome) && Gate(v, config, w, h).outcome.admitted != {}
    requires v.ClockTime(w.now) && v.ClockTime(later) && w.now <= later
    requires var lapse := LapsesAt(Gate(v, config, w, h).outcome); lapse.Some? ==> later < lapse.value
    ensures ClaimsFor(v, config, w) == ClaimsFor(v, config, w.(now := later))
  {
    var o := Gate(v, config, w, h).outcome;
    if o.status.source.FromPlatform? && !o.status.state.IsLapsed? {
      ScheduledOutcome(v, config, w, h);
      SameClaimsUntilLapse(v, config.block, w, later);
    } else {
      DeliveryOutcome(v, config, w, h);
      DeliveryAlwaysHolds(v, config.block, w);
      DeliveryAlwaysHolds(v, config.block, w.(now := later));
      NoLapseSameClaims(v, w, later);
    }
  }

  /** Where no re-gate is scheduled, the passing of time takes no coverage away. */
  lemma NoTimerNoLoss(v: Vendor, config: Config, w: World, h: History, later: int, item: Item)
    requires w.Attached() && Gate(v, config, w, h).Accepted? && RestsOnDelivery(config, Gate(v, config, w, h).outcome)
    requires LapsesAt(Gate(v, config, w, h).outcome).None?
    requires v.ClockTime(w.now) && v.ClockTime(later) && w.now <= later
    requires item in Items(v, config) && StandingIn(v, config, w, item).Covered?
    ensures StandingIn(v, config, w.(now := later), item).Covered?
  {
    CoveredIsLoaded(v, config, w, h, item);
    SameClaimsBeforeTimer(v, config, w, h, later);
  }

  /** A restart before the scheduled re-gate lands where the gateway was, however long the restart took. */
  lemma LateRestartLands(v: Vendor, config: Config, w: World, h: History, later: int, readBack: Delivery)
    requires Gate(v, config, w, h).Accepted?
    requires LapsesAt(Gate(v, config, w, h).outcome).Some?
    requires v.ClockTime(w.now) && v.ClockTime(later)
    requires w.now <= later < LapsesAt(Gate(v, config, w, h).outcome).value
    requires ReadBack(w.delivery, readBack, later)
    requires w.delivery.origin.Unproven? ==> config.block.NoBlock?
    ensures var landing := Landing(v, config, w.(now := later, delivery := readBack));
      landing.Accepted? && SameItems(Gate(v, config, w, h).outcome, landing.outcome)
  {
    LandingUntilLapse(v, config, w, h, later);
    RestartLands(v, config, w.(now := later), RESTARTED, readBack);
  }
}
