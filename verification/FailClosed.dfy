/** No gated item ever runs unlicensed: it is covered, held with every call refused, or not loaded. */
module FailClosed {
  import opened Common
  import opened Licence
  import opened Resolution
  import opened LicenceGate
  import opened GateTheorems
  import opened Runtime

  // ----- Names tell items apart -----

  lemma SurfacePathFixesFeature(c: Config, i: Item, j: Item)
    requires i in LicensedSurfaces(c) && j in LicensedSurfaces(c) && i.path == j.path
    ensures i == j
  {
    SurfaceMarks(c, i);
    SurfaceMarks(c, j);
  }

  /** The characters of a surface path that tell which block of the config it names. */
  predicate Marked(i: Item) {
    && i.Surface? && |i.path| > 18
    && (
      || (i.feature == EventsWebhooks && i.path[0] == 'm')
      || (i.feature == Dpop && i.path[0] == 'g' && i.path[18] == 'd')
      || (i.path[0] == 'g' && i.path[18] == 'a' && |i.path| > 39 && (
            || (i.feature == InteractiveLogin && (i.path[39] == 't' || i.path[39] == 'i'))
            || (i.feature == Dpop && i.path[39] == 'd')
            || (i.feature == RichAuthorization && i.path[39] == 'a'))))
  }

  lemma ServerSurfaceMarked(feature: Feature, rest: string)
    requires |rest| > 1
    requires
      || (feature == InteractiveLogin && (rest[1] == 't' || rest[1] == 'i'))
      || (feature == Dpop && rest[1] == 'd')
      || (feature == RichAuthorization && rest[1] == 'a')
    ensures Marked(Surface(feature, SERVER + rest))
  {
    assert SERVER[0] == 'g' && SERVER[18] == 'a' && |SERVER| == 38;
  }

  lemma LoginMarked(issuer: string)
    ensures Marked(Surface(InteractiveLogin, LoginPath(issuer)))
  {
    var rest := ".trusted_idps[`" + issuer + "`].login";
    assert LoginPath(issuer) == SERVER + rest;
    ServerSurfaceMarked(InteractiveLogin, rest);
  }

  lemma ServerSurfacesMarked(server: AuthorizationServer, i: Item)
    requires i in ServerSurfaces(server)
    ensures Marked(i)
  {
    if i in LoginSurfaces(server.idps) {
      var p :| p in server.idps && p.login && i.path == LoginPath(p.issuer);
      LoginMarked(p.issuer);
    } else {
      ServerSurfaceMarked(InteractiveLogin, ".interactive");
      ServerSurfaceMarked(Dpop, ".dpop");
      ServerSurfaceMarked(RichAuthorization, ".authorization_details");
    }
  }

  lemma SurfaceMarks(c: Config, i: Item)
    requires i in LicensedSurfaces(c)
    ensures Marked(i)
  {
    if c.server.Some? && i in ServerSurfaces(c.server.value) {
      ServerSurfacesMarked(c.server.value, i);
    } else {
      assert DPOP_SURFACE[0] == 'g' && DPOP_SURFACE[18] == 'd';
      assert EVENTS_WEBHOOK_SURFACE[0] == 'm';
    }
  }

  lemma KeyTail(i: Item)
    ensures i.Key()[0] == (if i.Plugin? then 'p' else 's')
    ensures i.Name() == i.Key()[(if i.Plugin? then 7 else 8)..]
  {
  }

  /** A name starts as its kind does: first-party plugins with `d`, surfaces with `g` or `m`. */
  lemma NamesTellItemsApart(v: Vendor, c: Config, i: Item, j: Item)
    requires v.GatesFirstParty()
    requires i in Items(v, c) && j in Items(v, c)
    ensures i.Name() == j.Name() ==> i == j
    ensures i.Key() == j.Key() ==> i == j
  {
    KeyTail(i);
    KeyTail(j);
    NameStarts(v, c, i);
    NameStarts(v, c, j);
    if i.Surface? && j.Surface? && i.path == j.path {
      SurfacePathFixesFeature(c, i, j);
    }
  }

  lemma NameStarts(v: Vendor, c: Config, i: Item)
    requires v.GatesFirstParty() && i in Items(v, c)
    ensures i.Name() != "" && (i.Plugin? <==> i.Name()[0] == 'd')
    ensures i.Surface? ==> i in LicensedSurfaces(c)
  {
    if i in LicensedSurfaces(c) {
      SurfaceMarks(c, i);
    } else {
      assert FIRST_PARTY_ID_PREFIX[0] == 'd' && FIRST_PARTY_ID_PREFIX <= i.id;
    }
  }

  // ----- Every gated item is exactly one of covered, withheld and held -----

  lemma NamesMembers(items: seq<Item>, name: string)
    ensures name in Names(items) <==> exists i :: i in items && i.Name() == name
  {
    if exists i :: i in items && i.Name() == name {
      var k :| 0 <= k < |items| && items[k].Name() == name;
      assert Names(items)[k] == name;
    }
  }

  lemma WithheldMembers(items: seq<Item>, name: string)
    ensures (exists x :: x in AsWithheld(items) && x.pluginId == name) <==> exists i :: i in items && i.Name() == name
  {
    if exists i :: i in items && i.Name() == name {
      var k :| 0 <= k < |items| && items[k].Name() == name;
      assert AsWithheld(items)[k].pluginId == name;
    }
  }

  lemma JudgedItem(c: Ctx, items: seq<Item>, item: Item)
    requires c.w.Attached() && item in items && Judge(c, items).Accepted?
    requires forall j :: j in items ==> (item.Name() == j.Name() ==> item == j) && (item.Key() == j.Key() ==> item == j)
    ensures var o := Judge(c, items).outcome; var covered := StandingOf(c.v, c.resolved.claims, c.w.bound, item).Covered?;
      && (item.Name() in WithheldIds(o) <==> !covered && CanBeWithheld(item))
      && (item.Name() in o.held <==> !covered && !CanBeWithheld(item))
      && (item.Key() in o.admitted <==> covered || !CanBeWithheld(item))
  {
    JudgeAccepts(c, items);
    NamesMembers(Select(c, items, IsHeld), item.Name());
    WithheldMembers(Select(c, items, IsWithheld), item.Name());
    assert FateOf(c, item).Admit? <==> StandingOf(c.v, c.resolved.claims, c.w.bound, item).Covered?;
  }

  /** In every accepted answer of an attached gateway each gated item is exactly one of covered, withheld and held. */
  lemma EveryItemSettled(v: Vendor, config: Config, w: World, h: History, item: Item)
    requires v.GatesFirstParty()
    requires w.Attached() && Gate(v, config, w, h).Accepted? && item in Items(v, config)
    ensures var o := Gate(v, config, w, h).outcome; var covered := StandingIn(v, config, w, item).Covered?;
      && (item.Name() in WithheldIds(o) <==> !covered && CanBeWithheld(item))
      && (item.Name() in o.held <==> !covered && !CanBeWithheld(item))
      && (item.Key() in o.admitted <==> covered || !CanBeWithheld(item))
  {
    forall j | j in Items(v, config) {
      NamesTellItemsApart(v, config, item, j);
    }
    AcceptedIsJudged(v, config, w, h);
    JudgedItem(CtxFor(v, config, w, h), Items(v, config), item);
  }

  lemma SomethingWaitsIff(c: Ctx, items: seq<Item>)
    ensures Select(c, items, IsWithheld) != [] || Select(c, items, IsHeld) != []
      <==> TakesBack(c, items, Uncovered) || TakesBack(c, items, LeftOut)
  {
    var withheld, held := Select(c, items, IsWithheld), Select(c, items, IsHeld);
    if withheld != [] {
      assert withheld[0] in items && FateOf(c, withheld[0]).TakeBack?;
    }
    if held != [] {
      assert held[0] in items && FateOf(c, held[0]).TakeBack?;
    }
    assert forall i :: i in items && FateOf(c, i).TakeBack? ==> i in withheld || i in held;
  }

  /** A reason to wait is given exactly when something waits. */
  lemma HoldIffWaiting(v: Vendor, config: Config, w: World, h: History)
    requires Gate(v, config, w, h).Accepted?
    ensures var o := Gate(v, config, w, h).outcome;
      o.hold.Some? <==> o.withheld != [] || o.held != []
  {
    AcceptedIsJudged(v, config, w, h);
    var c := CtxFor(v, config, w, h);
    SomethingWaitsIff(c, Items(v, config));
    assert TakesBack(c, Items(v, config), Uncovered) ==> c.resolved.hold.Some?;
  }

  /** The plugins a gateway may lack while it serves calls. */
  predicate FailsClosedWithout(pluginId: string) {
    var id := WithoutPrefix(pluginId, FIRST_PARTY_ID_PREFIX);
    "backend." <= id || "credential." <= id || "secret." <= id
  }

  lemma WithheldShapes(items: seq<Item>, x: Withheld)
    requires forall i :: i in items ==> CanBeWithheld(i)
    requires x in AsWithheld(items) && !x.holdsTools
    ensures FailsClosedWithout(x.pluginId)
  {
    var k :| 0 <= k < |items| && AsWithheld(items)[k] == x;
    assert CanBeWithheld(items[k]);
  }

  /** Calls are served only while nothing is held and nothing but backends, credentials and secrets is withheld. */
  lemma ServesOnlyFailClosed(v: Vendor, config: Config, w: World, h: History)
    requires Gate(v, config, w, h).Accepted?
    requires ToolHoldOf(Gate(v, config, w, h).outcome).None?
    ensures var o := Gate(v, config, w, h).outcome;
      o.held == [] && forall x :: x in o.withheld ==> FailsClosedWithout(x.pluginId)
  {
    AcceptedIsJudged(v, config, w, h);
    var withheld := Gate(v, config, w, h).outcome.withheld;
    var chosen := Select(CtxFor(v, config, w, h), Items(v, config), IsWithheld);
    assert withheld == AsWithheld(chosen);
    assert ToolGates(withheld) == [];
    forall x | x in withheld ensures FailsClosedWithout(x.pluginId) {
      WithheldShapes(chosen, x);
    }
  }

  /** Once the withheld plugins are taken out, every gated plugin left enabled is covered or held. */
  lemma EnabledMeansCoveredOrHeld(v: Vendor, config: Config, w: World, h: History, e: PluginEntry)
    requires v.GatesFirstParty()
    requires w.Attached() && Gate(v, config, w, h).Accepted?
    requires e in Disabled(config.plugins, WithheldIds(Gate(v, config, w, h).outcome))
    requires !e.disabled && v.gated(e.ManifestId())
    ensures var item := Plugin(e.ManifestId());
      || StandingIn(v, config, w, item).Covered?
      || (item.id in Gate(v, config, w, h).outcome.held && ToolHoldOf(Gate(v, config, w, h).outcome).Some?)
  {
    assert e in config.plugins;
    EveryItemSettled(v, config, w, h, Plugin(e.ManifestId()));
  }
}
