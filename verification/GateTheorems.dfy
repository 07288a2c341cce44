/** What every answer of the gate keeps: fail-closed, independent of history, landing where a restart lands. */
module GateTheorems {
  import opened Common
  import opened Licence
  import opened Resolution
  import opened LicenceGate

  /** The claims the items of `config` are checked against in world `w`. */
  function ClaimsFor(v: Vendor, config: Config, w: World): Claims {
    match Resolve(v, config.block, w)
    case Ok(resolved) => resolved.claims
    case Err(_) => v.community
  }

  function StandingIn(v: Vendor, config: Config, w: World, item: Item): Standing {
    StandingOf(v, ClaimsFor(v, config, w), w.bound, item)
  }

  /** What the items of `config` are judged in; a licence nothing needs is not resolved. */
  function CtxFor(v: Vendor, config: Config, w: World, h: History): Ctx {
    match Resolve(v, config.block, w)
    case Ok(resolved) => Ctx(v, resolved, w, h)
    case Err(_) => Ctx(v, Resolved(v.community, COMMUNITY_STATUS, None), w, h)
  }

  lemma AcceptedIsJudged(v: Vendor, config: Config, w: World, h: History)
    requires Gate(v, config, w, h).Accepted?
    ensures Gate(v, config, w, h) == Judge(CtxFor(v, config, w, h), Items(v, config))
  {
  }

  /** The history of a restarted process: it runs nothing yet. */
  const RESTARTED := History({}, [], true)

  /** Where a restart lands in world `w`. */
  function Landing(v: Vendor, config: Config, w: World): Verdict {
    Gate(v, config, w, RESTARTED)
  }

  /** Two outcomes load, withhold and hold the same items. */
  predicate SameItems(a: Outcome, b: Outcome) {
    a.admitted == b.admitted && a.withheld == b.withheld && a.held == b.held
  }

  // ----- Accepting is decided item by item -----

  lemma JudgeAccepts(c: Ctx, items: seq<Item>)
    ensures Judge(c, items).Accepted? <==> forall i :: i in items ==> !FateOf(c, i).Refuse? && !FateOf(c, i).Await?
  {
    var refused, awaited := Select(c, items, IsRefused), Select(c, items, IsAwaited);
    assert refused == [] <==> AsFindings(c, refused) == [];
    assert awaited == [] <==> AsFindings(c, awaited) == [];
    assert refused != [] ==> refused[0] in items && FateOf(c, refused[0]).Refuse?;
    assert awaited != [] ==> awaited[0] in items && FateOf(c, awaited[0]).Await?;
    assert forall i :: i in items && FateOf(c, i).Refuse? ==> i in refused;
    assert forall i :: i in items && FateOf(c, i).Await? ==> i in awaited;
  }

  lemma {:induction false} SelectAgrees(c: Ctx, d: Ctx, items: seq<Item>, b: Bucket)
    requires forall i :: i in items ==> FateOf(c, i) == FateOf(d, i)
    ensures Select(c, items, b) == Select(d, items, b)
  {
    if items != [] {
      SelectAgrees(c, d, items[..|items| - 1], b);
    }
  }

  /** Equal fates give equal answers, whatever else differs. */
  lemma JudgeAgrees(c: Ctx, d: Ctx, items: seq<Item>)
    requires forall i :: i in items ==> FateOf(c, i) == FateOf(d, i)
    ensures Judge(c, items).Accepted? <==> Judge(d, items).Accepted?
    ensures Judge(c, items).Accepted? ==> SameItems(Judge(c, items).outcome, Judge(d, items).outcome)
  {
    JudgeAccepts(c, items);
    JudgeAccepts(d, items);
    SelectAgrees(c, d, items, IsWithheld);
    SelectAgrees(c, d, items, IsHeld);
    assert LoadedKeys(c, items) == LoadedKeys(d, items);
  }

  // ----- History decides only whether a config is refused -----

  lemma AcceptedFateIgnoresHistory(c: Ctx, item: Item)
    requires c.w.Attached()
    requires !FateOf(c, item).Refuse? && !FateOf(c, item).Await?
    ensures FateOf(c, item) == FateOf(c.(h := RESTARTED), item)
  {
  }

  /** An attached gateway that is accepted at all runs exactly what a restart in the same world runs. */
  lemma AcceptedIsLanding(v: Vendor, config: Config, w: World, h: History)
    requires w.Attached()
    requires Gate(v, config, w, h).Accepted?
    ensures Gate(v, config, w, h) == Landing(v, config, w)
  {
    var items := Items(v, config);
    match Resolve(v, config.block, w)
    case Err(_) =>
    case Ok(resolved) =>
      var c := Ctx(v, resolved, w, h);
      var d := c.(h := RESTARTED);
      JudgeAccepts(c, items);
      forall i | i in items ensures FateOf(c, i) == FateOf(d, i) {
        AcceptedFateIgnoresHistory(c, i);
      }
      JudgeAgrees(c, d, items);
      TakesBackAgrees(c, d, items);
      SelectAgrees(c, d, items, IsWithheld);
  }

  lemma TakesBackAgrees(c: Ctx, d: Ctx, items: seq<Item>)
    requires c.v == d.v && c.resolved.claims == d.resolved.claims && c.w.bound == d.w.bound
    requires forall i :: i in items ==> FateOf(c, i) == FateOf(d, i)
    ensures forall s :: TakesBack(c, items, s) == TakesBack(d, items, s)
  {
    forall s ensures TakesBack(c, items, s) == TakesBack(d, items, s) {
      if TakesBack(c, items, s) {
        var i :| i in items && FateOf(c, i).TakeBack? && StandingOf(c.v, c.resolved.claims, c.w.bound, i) == s;
        assert FateOf(d, i).TakeBack?;
      }
      if TakesBack(d, items, s) {
        var i :| i in items && FateOf(d, i).TakeBack? && StandingOf(d.v, d.resolved.claims, d.w.bound, i) == s;
        assert FateOf(c, i).TakeBack?;
      }
    }
  }

  /** Whatever two attached gateways ran before, if both are accepted they run, withhold and hold the same. */
  lemma HistoryIndependence(v: Vendor, config: Config, w: World, h: History, h': History)
    requires w.Attached()
    requires Gate(v, config, w, h).Accepted? && Gate(v, config, w, h').Accepted?
    ensures Gate(v, config, w, h) == Gate(v, config, w, h')
  {
    AcceptedIsLanding(v, config, w, h);
    AcceptedIsLanding(v, config, w, h');
  }

  // ----- Worlds that resolve to the same claims -----

  /** A delivery an attached gateway runs on always says why what it does not cover waits. */
  lemma DeliveryAlwaysHolds(v: Vendor, block: LicenceBlock, w: World)
    requires w.Attached()
    requires block.NoBlock? || w.delivery.ProvenAt(w.now)
    ensures Resolve(v, block, w) == Ok(ResolveDelivery(v, w.delivery, w.now))
    ensures ResolveDelivery(v, w.delivery, w.now).hold.Some?
  {
  }

  /** A restart is accepted wherever the licence says why the rest waits. */
  lemma LandingAccepts(v: Vendor, config: Config, w: World)
    requires w.Attached()
    requires Resolve(v, config.block, w).Ok? && Resolve(v, config.block, w).value.hold.Some?
    ensures Landing(v, config, w).Accepted?
  {
    JudgeAccepts(Ctx(v, Resolve(v, config.block, w).value, w, RESTARTED), Items(v, config));
  }

  /** The landing depends on the world only through the claims it resolves to and the bound set. */
  lemma LandingAgrees(v: Vendor, config: Config, config': Config, w: World, w': World)
    requires w.Attached() && w'.Attached() && w.bound == w'.bound
    requires config' == config.(block := config'.block)
    requires Resolve(v, config.block, w).Ok? && Resolve(v, config'.block, w').Ok?
    requires Resolve(v, config.block, w).value.hold.Some? && Resolve(v, config'.block, w').value.hold.Some?
    requires ClaimsFor(v, config, w) == ClaimsFor(v, config', w')
    ensures Landing(v, config, w).Accepted? && Landing(v, config', w').Accepted?
    ensures SameItems(Landing(v, config, w).outcome, Landing(v, config', w').outcome)
  {
    LandingAccepts(v, config, w);
    LandingAccepts(v, config', w');
    assert Items(v, config) == Items(v, config');
    JudgeAgrees(
      Ctx(v, Resolve(v, config.block, w).value, w, RESTARTED),
      Ctx(v, Resolve(v, config'.block, w').value, w', RESTARTED), Items(v, config));
  }

  /** Two contexts that differ at most in the clock, the delivery and the status it resolved to. */
  ghost predicate SameTerms(c: Ctx, d: Ctx) {
    && c.v == d.v && c.h == d.h && c.w.bound == d.w.bound && c.w.Attached() && d.w.Attached()
    && c.resolved.claims == d.resolved.claims && c.resolved.hold == d.resolved.hold
  }

  lemma JudgeHoldAgrees(c: Ctx, d: Ctx, items: seq<Item>)
    requires SameTerms(c, d) && Judge(c, items).Accepted? && Judge(d, items).Accepted?
    ensures Judge(c, items).outcome.hold == Judge(d, items).outcome.hold
  {
    assert forall i :: i in items ==> FateOf(c, i) == FateOf(d, i);
    TakesBackAgrees(c, d, items);
    assert TakesBack(c, items, Uncovered) == TakesBack(d, items, Uncovered);
    assert TakesBack(c, items, LeftOut) == TakesBack(d, items, LeftOut);
  }

  /** Where two worlds also give the same reason to wait, the landings give the same reason. */
  lemma LandingHoldAgrees(v: Vendor, config: Config, w: World, w': World)
    requires w.Attached() && w'.Attached() && w.bound == w'.bound
    requires Resolve(v, config.block, w).Ok? && Resolve(v, config.block, w').Ok?
    requires Resolve(v, config.block, w).value.hold == Resolve(v, config.block, w').value.hold
    requires ClaimsFor(v, config, w) == ClaimsFor(v, config, w')
    requires Landing(v, config, w).Accepted? && Landing(v, config, w').Accepted?
    ensures Landing(v, config, w).outcome.hold == Landing(v, config, w').outcome.hold
  {
    AcceptedIsJudged(v, config, w, RESTARTED);
    AcceptedIsJudged(v, config, w', RESTARTED);
    var c, d := CtxFor(v, config, w, RESTARTED), CtxFor(v, config, w', RESTARTED);
    assert SameTerms(c, d);
    JudgeHoldAgrees(c, d, Items(v, config));
  }
}
