/** What the gate answers, said in the licence library's own answers and the config's own words. */
module Coverage {
  import opened Common
  import opened Licence
  import opened Resolution
  import opened LicenceGate
  import opened GateTheorems
  import opened Runtime
  import opened FailClosed

  // ----- One item, by what the library says of it -----

  /** No finding of a refusal is about the item. */
  predicate Unblamed(r: Refusal, i: Item) {
    && Unlicensed(i) !in r.refused && Unlicensed(i) !in r.awaiting
    && OutsideBoundSet(i.Name()) !in r.refused && OutsideBoundSet(i.Name()) !in r.awaiting
  }

  lemma {:induction false} BlamedWas(c: Ctx, items: seq<Item>, b: Bucket, i: Item, chosen: seq<Item>)
    requires chosen == Select(c, items, b)
    requires forall j :: j in items ==> (i.Name() == j.Name() ==> i == j)
    ensures (Unlicensed(i) in AsFindings(c, chosen) || OutsideBoundSet(i.Name()) in AsFindings(c, chosen)) ==> i in chosen
  {
    if Unlicensed(i) in AsFindings(c, chosen) {
      var k :| 0 <= k < |chosen| && AsFindings(c, chosen)[k] == Unlicensed(i);
      assert chosen[k] in chosen;
    } else if OutsideBoundSet(i.Name()) in AsFindings(c, chosen) {
      var k :| 0 <= k < |chosen| && AsFindings(c, chosen)[k] == OutsideBoundSet(i.Name());
      assert chosen[k] in chosen;
    }
  }

  /** An item that is admitted is no part of any refusal. */
  lemma AdmittedUnblamed(c: Ctx, items: seq<Item>, i: Item)
    requires FateOf(c, i).Admit? && Judge(c, items).Refused?
    requires forall j :: j in items ==> (i.Name() == j.Name() ==> i == j)
    ensures Unblamed(Judge(c, items).refusal, i)
  {
    BlamedWas(c, items, IsRefused, i, Select(c, items, IsRefused));
    BlamedWas(c, items, IsAwaited, i, Select(c, items, IsAwaited));
  }

  lemma BlamedIs(c: Ctx, items: seq<Item>, i: Item)
    requires i in items && FateOf(c, i).Refuse?
    ensures Judge(c, items).Refused? && FindingFor(c, i) in Judge(c, items).refusal.refused
  {
    var chosen := Select(c, items, IsRefused);
    var k :| 0 <= k < |chosen| && chosen[k] == i;
    assert AsFindings(c, chosen)[k] == FindingFor(c, i);
  }

  /** What an accepted answer does with one item, by its fate. */
  lemma AcceptedItem(c: Ctx, items: seq<Item>, i: Item)
    requires i in items && Judge(c, items).Accepted?
    requires forall j :: j in items ==> (i.Name() == j.Name() ==> i == j) && (i.Key() == j.Key() ==> i == j)
    ensures var o := Judge(c, items).outcome;
      && (FateOf(c, i).Admit? || FateOf(c, i).TakeBack?)
      && (i.Name() in WithheldIds(o) <==> FateOf(c, i).TakeBack? && CanBeWithheld(i))
      && (i.Name() in o.held <==> FateOf(c, i).TakeBack? && !CanBeWithheld(i))
      && (i.Key() in o.admitted <==> FateOf(c, i).Admit? || !CanBeWithheld(i))
  {
    JudgeAccepts(c, items);
    NamesMembers(Select(c, items, IsHeld), i.Name());
    WithheldMembers(Select(c, items, IsWithheld), i.Name());
  }

  /** The answer leaves an item that is covered alone: loaded, not taken back, and not why anything is refused. */
  ghost predicate LeftAlone(verdict: Verdict, i: Item) {
    match verdict
    case Accepted(o) => i.Key() in o.admitted && i.Name() !in o.held && i.Name() !in WithheldIds(o)
    case Refused(r) => Unblamed(r, i)
  }

  lemma AdmitLeavesAlone(v: Vendor, config: Config, w: World, h: History, i: Item)
    requires v.GatesFirstParty() && i in Items(v, config) && FateOf(CtxFor(v, config, w, h), i).Admit?
    ensures LeftAlone(Gate(v, config, w, h), i)
  {
    forall j | j in Items(v, config) {
      NamesTellItemsApart(v, config, i, j);
    }
    var c := CtxFor(v, config, w, h);
    if Gate(v, config, w, h).Accepted? {
      AcceptedIsJudged(v, config, w, h);
      AcceptedItem(c, Items(v, config), i);
    } else if Resolve(v, config.block, w).Ok? {
      AdmittedUnblamed(c, Items(v, config), i);
    }
  }

  /** The same of the gate's answer. */
  lemma AcceptedGateItem(v: Vendor, config: Config, w: World, h: History, i: Item)
    requires v.GatesFirstParty() && i in Items(v, config) && Gate(v, config, w, h).Accepted?
    ensures var o := Gate(v, config, w, h).outcome; var fate := FateOf(CtxFor(v, config, w, h), i);
      && (fate.Admit? || fate.TakeBack?)
      && (i.Name() in WithheldIds(o) <==> fate.TakeBack? && CanBeWithheld(i))
      && (i.Name() in o.held <==> fate.TakeBack? && !CanBeWithheld(i))
      && (i.Key() in o.admitted <==> fate.Admit? || !CanBeWithheld(i))
  {
    forall j | j in Items(v, config) {
      NamesTellItemsApart(v, config, i, j);
    }
    AcceptedIsJudged(v, config, w, h);
    AcceptedItem(CtxFor(v, config, w, h), Items(v, config), i);
  }

  /** The library lets the claims load the plugin, in its own name or as the platform's coordinator. */
  predicate Licensed(v: Vendor, claims: Claims, id: string) {
    v.violates(claims, id) ==> v.admitsCoordinator(claims, id)
  }

  predicate InBoundSet(v: Vendor, w: World, id: string) {
    match w.bound
    case None => true
    case Some(ids) => id in ids + {v.coordinator}
  }

  lemma SurfaceFate(v: Vendor, config: Config, w: World, h: History, i: Item)
    requires i.Surface?
    ensures var fate := FateOf(CtxFor(v, config, w, h), i); var loaded := i.Key() in h.admitted;
      if v.hasFeature(ClaimsFor(v, config, w), i.feature) then fate.Admit?
      else (fate.Admit? ==> !w.Attached() && loaded) && (fate.TakeBack? ==> loaded || h.restart)
  {
  }

  lemma PluginFate(v: Vendor, config: Config, w: World, h: History, id: string)
    ensures var fate := FateOf(CtxFor(v, config, w, h), Plugin(id));
      if InBoundSet(v, w, id) && Licensed(v, ClaimsFor(v, config, w), id) then fate.Admit?
      else fate.Admit? ==> !w.Attached() && InBoundSet(v, w, id) && Plugin(id).Key() in h.admitted
  {
  }

  /** A surface is judged by whether the claims in force have its feature. */
  lemma SurfaceJudged(v: Vendor, config: Config, w: World, h: History, feature: Feature, path: string)
    requires v.GatesFirstParty() && Surface(feature, path) in Items(v, config)
    ensures v.hasFeature(ClaimsFor(v, config, w), feature) ==> LeftAlone(Gate(v, config, w, h), Surface(feature, path))
    ensures !v.hasFeature(ClaimsFor(v, config, w), feature) && Gate(v, config, w, h).Accepted? ==>
      && Surface(feature, path).Key() in Gate(v, config, w, h).outcome.admitted
      && (if w.Attached() then path in Gate(v, config, w, h).outcome.held
          else Surface(feature, path).Key() in h.admitted || h.restart)
  {
    var i := Surface(feature, path);
    SurfaceFate(v, config, w, h, i);
    if v.hasFeature(ClaimsFor(v, config, w), feature) {
      AdmitLeavesAlone(v, config, w, h, i);
    } else if Gate(v, config, w, h).Accepted? {
      AcceptedGateItem(v, config, w, h, i);
    }
  }

  /** A plugin is judged by the bound set and by whether the claims in force license it. */
  lemma PluginJudged(v: Vendor, config: Config, w: World, h: History, id: string)
    requires v.GatesFirstParty() && Plugin(id) in Items(v, config)
    ensures InBoundSet(v, w, id) && Licensed(v, ClaimsFor(v, config, w), id) ==>
      LeftAlone(Gate(v, config, w, h), Plugin(id))
    ensures !(InBoundSet(v, w, id) && Licensed(v, ClaimsFor(v, config, w), id)) && Gate(v, config, w, h).Accepted? ==>
      var o := Gate(v, config, w, h).outcome;
      || (ShapeOf(id).MustWait? && id in o.held && Plugin(id).Key() in o.admitted)
      || (!ShapeOf(id).MustWait? && id in WithheldIds(o) && Plugin(id).Key() !in o.admitted)
      || (!w.Attached() && InBoundSet(v, w, id) && Plugin(id).Key() in h.admitted)
  {
    var i := Plugin(id);
    PluginFate(v, config, w, h, id);
    if InBoundSet(v, w, id) && Licensed(v, ClaimsFor(v, config, w), id) {
      AdmitLeavesAlone(v, config, w, h, i);
    } else if Gate(v, config, w, h).Accepted? {
      AcceptedGateItem(v, config, w, h, i);
    }
  }

  /** A plugin outside the bound set that the gateway neither ran nor restarts into is named in the refusal. */
  lemma AddedOutsideSetRefused(v: Vendor, config: Config, w: World, h: History, id: string)
    requires Plugin(id) in Items(v, config) && !InBoundSet(v, w, id) && Resolve(v, config.block, w).Ok?
    requires Plugin(id).Key() !in h.admitted && id !in h.withheld && !h.restart
    ensures Gate(v, config, w, h).Refused? && OutsideBoundSet(id) in Gate(v, config, w, h).refusal.refused
  {
    BlamedIs(CtxFor(v, config, w, h), Items(v, config), Plugin(id));
  }

  /** A block licence past its grace is the one reason to wait a standalone gateway has. */
  lemma StandaloneReason(v: Vendor, config: Config, w: World)
    requires !w.Attached() && Resolve(v, config.block, w).Ok? && Resolve(v, config.block, w).value.hold.Some?
    ensures config.block.Block? && !config.block.nonProductionUse && config.block.token.TokenVerified?
    ensures var licence := config.block.token.licence;
      w.now >= v.graceEndsAfter(licence.claims.exp, v.graceDays(licence.role))
  {
  }

  lemma RefusedAlone(c: Ctx, items: seq<Item>, i: Item)
    requires i in items && FateOf(c, i).Refuse?
    ensures Judge(c, items).Refused?
  {
    JudgeAccepts(c, items);
  }

  /** An item its own licence does not entitle refuses a standalone config that adds it, until that licence lapses. */
  lemma OwnLicenceRefuses(v: Vendor, config: Config, w: World, h: History, i: Item)
    requires !w.Attached() && i in Items(v, config) && !StandingIn(v, config, w, i).Covered? && i.Key() !in h.admitted
    requires Resolve(v, config.block, w).Ok? ==> Resolve(v, config.block, w).value.hold.None?
    ensures Gate(v, config, w, h).Refused?
  {
    if Resolve(v, config.block, w).Ok? {
      RefusedAlone(CtxFor(v, config, w, h), Items(v, config), i);
    }
  }

  /** Calls are served exactly while nothing is held and no tool gate is withheld. */
  lemma ServesIff(v: Vendor, config: Config, w: World, h: History)
    requires Gate(v, config, w, h).Accepted?
    ensures var o := Gate(v, config, w, h).outcome;
      ToolHoldOf(o).None? <==>
        o.held == [] && forall x :: x in o.withheld ==> !ShapeOf(x.pluginId).WithholdAndHoldTools?
  {
    AcceptedIsJudged(v, config, w, h);
    var chosen := Select(CtxFor(v, config, w, h), Items(v, config), IsWithheld);
    var withheld := Gate(v, config, w, h).outcome.withheld;
    assert withheld == AsWithheld(chosen);
    forall x | x in withheld ensures x.holdsTools == ShapeOf(x.pluginId).WithholdAndHoldTools? {
      var k :| 0 <= k < |chosen| && AsWithheld(chosen)[k] == x;
    }
  }

  // ----- What needs a licence -----

  /** The artifact of an entry is what it refers to, or else what it is called. */
  predicate RefersTo(e: PluginEntry, id: string) {
    e.ref == Some(id) || (e.ref.None? && e.id == id)
  }

  /** An enabled entry is judged by the artifact it refers to, whatever it is called in the config. */
  lemma JudgedByArtifact(v: Vendor, config: Config, id: string)
    ensures Plugin(id) in Items(v, config) <==>
      v.gated(id) && exists e :: e in config.plugins && !e.disabled && RefersTo(e, id)
  {
    if Plugin(id) in Items(v, config) {
      assert Plugin(id) in GatedPlugins(v, config.plugins);
    }
  }

  /** The surfaces of a config that need a licence are exactly these. */
  lemma SurfacesIff(c: Config, feature: Feature, path: string)
    ensures Surface(feature, path) in LicensedSurfaces(c) <==>
      match feature
      case EventsWebhooks =>
        c.eventsEnabled && c.webhookEnabled && path == "mcp.configurations.events.webhook"
      case Dpop =>
        || (c.dpop == Some(true) && path == "governance.access.dpop")
        || (c.server.Some? && c.server.value.dpop && path == "governance.access.authorization_server.dpop")
      case InteractiveLogin =>
        c.server.Some? && (
          || (c.server.value.interactive && path == "governance.access.authorization_server.interactive")
          || exists p :: p in c.server.value.idps && p.login && path == LoginPath(p.issuer))
      case RichAuthorization =>
        c.server.Some? && c.server.value.authorizationDetails
          && path == "governance.access.authorization_server.authorization_details"
  {
    SurfaceNames();
    var i := Surface(feature, path);
    assert i in LicensedSurfaces(c) <==>
      || (c.eventsEnabled && c.webhookEnabled && i == Surface(EventsWebhooks, EVENTS_WEBHOOK_SURFACE))
      || (c.dpop == Some(true) && i == Surface(Dpop, DPOP_SURFACE))
      || (c.server.Some? && i in ServerSurfaces(c.server.value));
    if c.server.Some? {
      ServerSurfacesIff(c.server.value, i);
    }
  }

  lemma ServerSurfacesIff(server: AuthorizationServer, i: Item)
    ensures i in ServerSurfaces(server) <==>
      || i in LoginSurfaces(server.idps)
      || (server.interactive && i == Surface(InteractiveLogin, SERVER + ".interactive"))
      || (server.dpop && i == Surface(Dpop, SERVER + ".dpop"))
      || (server.authorizationDetails && i == Surface(RichAuthorization, SERVER + ".authorization_details"))
  {
  }

  lemma SurfaceNames()
    ensures SERVER + ".interactive" == "governance.access.authorization_server.interactive"
    ensures SERVER + ".dpop" == "governance.access.authorization_server.dpop"
    ensures SERVER + ".authorization_details" == "governance.access.authorization_server.authorization_details"
  {
  }

  // ----- What stays enabled -----

  lemma WithheldIsPlugin(v: Vendor, config: Config, i: Item)
    requires i in Items(v, config) && CanBeWithheld(i)
    ensures i == Plugin(i.Name()) && v.gated(i.Name())
  {
    assert i in LicensedSurfaces(config) ==> i.Surface?;
  }

  /** Only gated plugins of the config are withheld. */
  lemma WithheldAreGated(v: Vendor, config: Config, w: World, h: History, id: string)
    requires Gate(v, config, w, h).Accepted? && id in WithheldIds(Gate(v, config, w, h).outcome)
    ensures Plugin(id) in Items(v, config) && v.gated(id)
  {
    AcceptedIsJudged(v, config, w, h);
    var chosen := Select(CtxFor(v, config, w, h), Items(v, config), IsWithheld);
    WithheldMembers(chosen, id);
    var i :| i in chosen && i.Name() == id;
    WithheldIsPlugin(v, config, i);
  }

  /** Withholding leaves an entry as it is when it is not gated, or covered; of any other it changes one flag. */
  lemma OthersStayEnabled(v: Vendor, config: Config, w: World, h: History, k: nat)
    requires v.GatesFirstParty() && Gate(v, config, w, h).Accepted? && k < |config.plugins|
    ensures var e := config.plugins[k]; var id := e.ManifestId();
      var left := Disabled(config.plugins, WithheldIds(Gate(v, config, w, h).outcome));
      && |left| == |config.plugins|
      && (left[k] == e || left[k] == e.(disabled := true))
      && (!v.gated(id) ==> left[k] == e)
      && (!e.disabled && InBoundSet(v, w, id) && Licensed(v, ClaimsFor(v, config, w), id) ==> left[k] == e)
  {
    var e := config.plugins[k];
    var id := e.ManifestId();
    if id in WithheldIds(Gate(v, config, w, h).outcome) {
      WithheldAreGated(v, config, w, h, id);
      PluginJudged(v, config, w, h, id);
    }
  }

  // ----- What a `license:` block grants -----

  /** The block counts: no delivery is proven, and it says something. */
  predicate BlockCounts(config: Config, w: World) {
    && !w.delivery.ProvenAt(w.now)
    && config.block.Block? && (config.block.nonProductionUse || !config.block.token.NoToken?)
  }

  /** Non-production use grants every plugin and every enterprise feature. */
  lemma NonProductionGrants(v: Vendor, config: Config, w: World)
    requires BlockCounts(config, w) && config.block.nonProductionUse
    ensures var c := ClaimsFor(v, config, w);
      c.entitlements == ["*"] && c.features == v.enterpriseFeatures && c.plan == "non-production"
    ensures Resolve(v, config.block, w).Ok? && Resolve(v, config.block, w).value.status.source.FromNonProduction?
  {
  }

  /** A block's licence is what items are checked against until its grace ends, and the community tier after. */
  lemma BlockLicenceRules(v: Vendor, config: Config, w: World)
    requires BlockCounts(config, w) && !config.block.nonProductionUse && config.block.token.TokenVerified?
    ensures var licence := config.block.token.licence;
      ClaimsFor(v, config, w) ==
        if w.now < v.graceEndsAfter(licence.claims.exp, v.graceDays(licence.role)) then licence.claims else v.community
    ensures Resolve(v, config.block, w).Ok? && Resolve(v, config.block, w).value.status.source.FromBlock?
  {
  }

  /** With nothing said by a block and none delivered, a standalone gateway runs on the community tier. */
  lemma StandaloneWithoutLicence(v: Vendor, config: Config, w: World)
    requires !w.Attached() && !BlockCounts(config, w)
    ensures ClaimsFor(v, config, w) == v.community && Resolve(v, config.block, w).Ok?
  {
  }

  /** A rejected token refuses every standalone config that needs a licence, and no other. */
  lemma RejectedTokenRefusesIff(v: Vendor, config: Config, w: World, h: History)
    requires !w.Attached() && BlockCounts(config, w) && !config.block.nonProductionUse
    requires config.block.token.TokenRejected?
    ensures Gate(v, config, w, h).Refused? <==> Items(v, config) != []
    ensures Gate(v, config, w, h).Refused? ==>
      Gate(v, config, w, h).refusal.refused == [LicenceUnverifiable(config.block.token.message)]
  {
    JudgeAccepts(CtxFor(v, config, w, h), []);
  }

  /** The library grants the plugins and the features that claims list. */
  ghost predicate GrantsWhatIsListed(v: Vendor) {
    && (forall c: Claims, id: string :: c.entitlements == ["*"] ==> !v.violates(c, id))
    && (forall c: Claims, f: Feature :: f in c.features ==> v.hasFeature(c, f))
  }

  lemma NoneSelected(c: Ctx, items: seq<Item>, b: Bucket)
    requires forall i :: i in items ==> !Falls(c, i, b)
    ensures Select(c, items, b) == []
  {
    assert forall i :: i !in Select(c, items, b);
  }

  lemma AllAdmitted(c: Ctx, items: seq<Item>)
    requires forall i :: i in items ==> FateOf(c, i).Admit?
    ensures var verdict := Judge(c, items);
      && verdict.Accepted? && verdict.outcome.withheld == [] && verdict.outcome.held == [] && verdict.outcome.hold.None?
      && forall i :: i in items ==> i.Key() in verdict.outcome.admitted
  {
    JudgeAccepts(c, items);
    NoneSelected(c, items, IsWithheld);
    NoneSelected(c, items, IsHeld);
  }

  /** Non-production use loads every config whose surfaces are enterprise features, and withholds nothing. */
  lemma NonProductionLoadsAll(v: Vendor, config: Config, w: World, h: History)
    requires BlockCounts(config, w) && config.block.nonProductionUse && w.bound.None? && GrantsWhatIsListed(v)
    requires forall i :: i in Items(v, config) && i.Surface? ==> i.feature in v.enterpriseFeatures
    ensures var verdict := Gate(v, config, w, h);
      && verdict.Accepted? && verdict.outcome.withheld == [] && verdict.outcome.held == [] && verdict.outcome.hold.None?
      && forall i :: i in Items(v, config) ==> i.Key() in verdict.outcome.admitted
  {
    NonProductionGrants(v, config, w);
    var c := CtxFor(v, config, w, h);
    forall i | i in Items(v, config) ensures FateOf(c, i).Admit? {
    }
    AllAdmitted(c, Items(v, config));
  }

  // ----- What a delivery grants -----

  /** No block has a say against the delivery. */
  predicate DeliveryDecides(config: Config, w: World) {
    w.Attached() && !BlockCounts(config, w)
  }

  /** A delivered self-host licence counts from any origin, until its grace ends. */
  lemma SelfHostDeliveryRules(v: Vendor, config: Config, w: World)
    requires DeliveryDecides(config, w) && w.delivery.Delivered? && Trim(w.delivery.jwt) != ""
    requires v.verify(Trim(w.delivery.jwt), CLOUD_POLICY).Failed?
    requires v.verify(Trim(w.delivery.jwt), CLOUD_POLICY).roleNotAccepted
    requires v.verify(Trim(w.delivery.jwt), SELF_HOST_POLICY).Verified?
    ensures var licence := v.verify(Trim(w.delivery.jwt), SELF_HOST_POLICY).licence;
      && ClaimsFor(v, config, w) ==
        (if w.now < v.graceEndsAfter(licence.claims.exp, v.graceDays(licence.role)) then licence.claims else v.community)
      && Resolve(v, config.block, w).value.status.graceEndsAt
        == v.Timestamp(v.graceEndsAfter(licence.claims.exp, v.graceDays(licence.role)))
      && (Resolve(v, config.block, w).value.status.state.IsLapsed? <==>
            w.now >= v.graceEndsAfter(licence.claims.exp, v.graceDays(licence.role)))
  {
  }

  /** What the gateway reports of a self-host licence, from a block or a delivery. */
  lemma SelfHostStatus(v: Vendor, licence: VendorLicence, source: Source, refreshFailing: bool, now: int)
    requires licence.role.SelfHost?
    ensures var ends := v.graceEndsAfter(licence.claims.exp, v.graceDays(SelfHost));
      var phase := v.phase(licence.claims.exp, now);
      var state := ResolvedFrom(v, licence, source, refreshFailing, now).status.state;
      && (state.IsLapsed? <==> now >= ends)
      && (state.IsCurrent? <==> now < ends && phase.Current?)
      && (state.IsExpiring? <==> now < ends && phase.ExpiringSoon?)
      && (state.IsInGrace? <==> now < ends && phase.InGrace?)
  {
  }

  /** A cloud licence on a proof kept from before a restart counts until the window of that proof ends, and no longer. */
  lemma KeptProofCountsUntil(v: Vendor, config: Config, w: World, licence: VendorLicence)
    requires w.delivery.Delivered? && w.delivery.origin.CachedProven? && Trim(w.delivery.jwt) != ""
    requires v.verify(Trim(w.delivery.jwt), CLOUD_POLICY) == Verified(licence)
    requires licence.claims.tenantSlug == w.delivery.org && config.block.NoBlock?
    ensures ClaimsFor(v, config, w) ==
      if w.now < w.delivery.origin.until && w.now < v.graceEndsAfter(licence.claims.exp, v.graceDays(licence.role))
      then licence.claims else v.community
  {
  }

  /** Before a delivery, on an empty one, and on one that does not verify, only the community tier counts. */
  lemma NothingDelivered(v: Vendor, config: Config, w: World)
    requires DeliveryDecides(config, w)
    requires w.delivery.Delivered? && Trim(w.delivery.jwt) != "" ==>
      VerifyDelivered(v, Trim(w.delivery.jwt), w.delivery.org, w.delivery.origin.At(w.now)).Err?
    ensures ClaimsFor(v, config, w) == v.community && Resolve(v, config.block, w).Ok?
    ensures var hold := Resolve(v, config.block, w).value.hold;
      && hold.Some?
      && (hold.value.AwaitingDelivery? <==> w.delivery.Pending?)
      && (hold.value.Unverified? <==> w.delivery.Delivered? && Trim(w.delivery.jwt) != "")
    ensures var status := Resolve(v, config.block, w).value.status;
      && status.plan == "community"
      && (status.source.FromPlatform? <==> w.delivery.Delivered?)
      && (status.state.IsPending? <==> w.delivery.Pending? || Trim(w.delivery.jwt) != "")
      && (status.state.IsUnlicensed? <==> w.delivery.Delivered? && Trim(w.delivery.jwt) == "")
  {
  }

  /** A cloud licence counts only for the org it names, on a proven delivery, and nothing else of it is tried. */
  lemma CloudLicenceCountsIff(v: Vendor, token: string, org: string, origin: Origin)
    requires v.verify(token, CLOUD_POLICY).Verified?
    ensures var licence := v.verify(token, CLOUD_POLICY).licence;
      && (VerifyDelivered(v, token, org, origin).Ok? <==> licence.claims.tenantSlug == org && origin.Proven?)
      && (VerifyDelivered(v, token, org, origin).Ok? ==> VerifyDelivered(v, token, org, origin).value == licence)
  {
  }

  /** What the gateway reports of a cloud licence that counts. */
  lemma CloudStatus(v: Vendor, config: Config, w: World, licence: VendorLicence)
    requires w.delivery.ProvenAt(w.now) && Trim(w.delivery.jwt) != "" && licence.role.Cloud?
    requires v.verify(Trim(w.delivery.jwt), CLOUD_POLICY) == Verified(licence)
    requires licence.claims.tenantSlug == w.delivery.org
    ensures var ends := v.graceEndsAfter(licence.claims.exp, v.graceDays(Cloud));
      var status := Resolve(v, config.block, w).value.status;
      && (status.state.IsLapsed? <==> w.now >= ends)
      && (status.state.IsInGrace? <==> w.now < ends && v.phase(licence.claims.exp, w.now).InGrace?)
      && (status.state.IsExpiring? <==>
            w.now < ends && !v.phase(licence.claims.exp, w.now).InGrace? && w.delivery.refreshFailing)
      && status.plan == licence.claims.plan && status.expiresAt == v.Timestamp(licence.claims.exp)
      && status.graceEndsAt == v.Timestamp(ends) && status.source.FromPlatform?
  {
  }

  // ----- What can be withheld -----

  /** The families of plugins a gateway can run without, and what their absence does. */
  lemma ShapeFamilies(rest: string)
    ensures ShapeOf(FIRST_PARTY_ID_PREFIX + ("payment." + rest)).WithholdAndHoldTools?
    ensures ShapeOf(FIRST_PARTY_ID_PREFIX + ("tool-gate." + rest)).WithholdAndHoldTools?
    ensures ShapeOf(FIRST_PARTY_ID_PREFIX + ("backend." + rest)).Withhold?
    ensures ShapeOf(FIRST_PARTY_ID_PREFIX + ("credential." + rest)).Withhold?
    ensures ShapeOf(FIRST_PARTY_ID_PREFIX + ("secret." + rest)).Withhold?
  {
    FamilyShape("payment.", rest);
    FamilyShape("tool-gate.", rest);
    FamilyShape("backend.", rest);
    FamilyShape("credential.", rest);
    FamilyShape("secret.", rest);
  }

  lemma FamilyShape(family: string, rest: string)
    requires family in ["payment.", "tool-gate.", "backend.", "credential.", "secret."]
    ensures var shape := ShapeOf(FIRST_PARTY_ID_PREFIX + (family + rest));
      if family[0] == 'p' || family[0] == 't' then shape.WithholdAndHoldTools? else shape.Withhold?
  {
    var id := family + rest;
    assert (FIRST_PARTY_ID_PREFIX + id)[|FIRST_PARTY_ID_PREFIX|..] == id;
    assert id[0] == family[0] && family <= id;
  }

  /** Outside those families and two names, everything must wait. */
  lemma ShapeOthers(id: string)
    requires forall family :: family in ["payment.", "tool-gate.", "backend.", "credential.", "secret."] ==> !(family <= id)
    ensures var shape := ShapeOf(FIRST_PARTY_ID_PREFIX + id);
      if id == "tool-gate-slack-approval" || id == "guardrails" then shape.WithholdAndHoldTools? else shape.MustWait?
  {
    assert (FIRST_PARTY_ID_PREFIX + id)[|FIRST_PARTY_ID_PREFIX|..] == id;
    var families := ["payment.", "tool-gate.", "backend.", "credential.", "secret."];
    assert families[0] in families && families[1] in families && families[2] in families;
    assert families[3] in families && families[4] in families;
  }

  // ----- What a standalone gateway keeps -----

  /** What a standalone gateway runs it goes on running, whatever becomes of its licence. */
  lemma StandaloneKeepsLoaded(v: Vendor, config: Config, w: World, h: History, i: Item)
    requires v.GatesFirstParty() && !w.Attached() && w.bound.None?
    requires i in Items(v, config) && i.Key() in h.admitted
    ensures LeftAlone(Gate(v, config, w, h), i)
  {
    AdmitLeavesAlone(v, config, w, h, i);
  }

  /** So a reload that adds nothing gated never fails on the gateway's own licence, once that can be read. */
  lemma StandaloneReloads(v: Vendor, config: Config, w: World, h: History)
    requires !w.Attached() && w.bound.None? && Resolve(v, config.block, w).Ok?
    requires forall i :: i in Items(v, config) ==> i.Key() in h.admitted
    ensures var verdict := Gate(v, config, w, h);
      && verdict.Accepted? && verdict.outcome.withheld == [] && verdict.outcome.held == []
      && forall i :: i in Items(v, config) ==> i.Key() in verdict.outcome.admitted
  {
    AllAdmitted(CtxFor(v, config, w, h), Items(v, config));
  }
}
