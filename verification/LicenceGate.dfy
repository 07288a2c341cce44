/** The licence gate: what a config may load, what is withheld, what is held, what refuses it. */
module LicenceGate {
  import opened Common
  import opened Licence
  import opened Resolution

  // ----- How a gated item can wait -----

  datatype WaitShape = Withhold | WithholdAndHoldTools | MustWait

  function ShapeOf(pluginId: string): WaitShape {
    var id := WithoutPrefix(pluginId, FIRST_PARTY_ID_PREFIX);
    if "payment." <= id || "tool-gate." <= id || id == "tool-gate-slack-approval" || id == "guardrails" then
      WithholdAndHoldTools
    else if "backend." <= id || "credential." <= id || "secret." <= id then Withhold
    else MustWait
  }

  /** The gateway can run without the item; a surface never can be left out. */
  predicate CanBeWithheld(item: Item) {
    item.Plugin? && !ShapeOf(item.id).MustWait?
  }

  // ----- What the gate answers -----

  /** What the gateway already runs, which decides only whether a config is refused. */
  datatype History = History(admitted: set<string>, withheld: seq<string>, restart: bool)

  datatype Withheld = Withheld(pluginId: string, holdsTools: bool)

  datatype Finding =
    | LicenceUnverifiable(message: string)
    | OutsideBoundSet(id: string)
    | Unlicensed(item: Item)

  datatype Outcome = Outcome(
    status: Status, admitted: set<string>, withheld: seq<Withheld>, held: seq<string>,
    hold: Option<HoldReason>, generation: nat, attached: bool, countsUntil: Option<int>)

  datatype Refusal = Refusal(plan: string, refused: seq<Finding>, awaiting: seq<Finding>, hold: Option<HoldReason>)

  datatype Verdict = Accepted(outcome: Outcome) | Refused(refusal: Refusal)

  // ----- The decision, item by item -----

  datatype Ctx = Ctx(v: Vendor, resolved: Resolved, w: World, h: History)

  predicate LeftOutOfBoundSet(v: Vendor, bound: Option<set<string>>, item: Item) {
    item.Plugin? && bound.Some? && item.id != v.coordinator && item.id !in bound.value
  }

  predicate CoveredBy(v: Vendor, claims: Claims, item: Item) {
    match item
    case Plugin(id) => !v.violates(claims, id) || v.admitsCoordinator(claims, id)
    case Surface(feature, _) => v.hasFeature(claims, feature)
  }

  /** Where an item stands with the licence and the bound set; nothing the gateway ran before matters. */
  datatype Standing = Covered | LeftOut | Uncovered

  function StandingOf(v: Vendor, claims: Claims, bound: Option<set<string>>, item: Item): Standing {
    if LeftOutOfBoundSet(v, bound, item) then LeftOut
    else if CoveredBy(v, claims, item) then Covered
    else Uncovered
  }

  datatype Fate = Admit | TakeBack | Refuse | Await

  function FateOf(c: Ctx, item: Item): Fate {
    var loaded := item.Key() in c.h.admitted;
    var keepsLoaded := c.w.delivery.Standalone?;
    match StandingOf(c.v, c.resolved.claims, c.w.bound, item)
    case Covered => Admit
    case LeftOut =>
      if (loaded || item.Name() in c.h.withheld || c.h.restart) && !keepsLoaded then TakeBack else Refuse
    case Uncovered =>
      if loaded && keepsLoaded then Admit
      else if c.resolved.hold.None? then Refuse
      else if CanBeWithheld(item) || loaded || c.h.restart then TakeBack
      else Await
  }

  datatype Bucket = IsRefused | IsAwaited | IsWithheld | IsHeld

  predicate Falls(c: Ctx, item: Item, bucket: Bucket) {
    match bucket
    case IsRefused => FateOf(c, item).Refuse?
    case IsAwaited => FateOf(c, item).Await?
    case IsWithheld => FateOf(c, item).TakeBack? && CanBeWithheld(item)
    case IsHeld => FateOf(c, item).TakeBack? && !CanBeWithheld(item)
  }

  /** The items of one bucket, in the order they are judged. */
  function Select(c: Ctx, items: seq<Item>, bucket: Bucket): (chosen: seq<Item>)
    ensures forall i :: i in chosen <==> i in items && Falls(c, i, bucket)
  {
    if items == [] then []
    else
      var last := items[|items| - 1];
      Select(c, items[..|items| - 1], bucket) + (if Falls(c, last, bucket) then [last] else [])
  }

  function Names(items: seq<Item>): seq<string> {
    seq(|items|, i requires 0 <= i < |items| => items[i].Name())
  }

  function AsWithheld(items: seq<Item>): seq<Withheld> {
    seq(|items|, i requires 0 <= i < |items| =>
      Withheld(items[i].Name(), ShapeOf(items[i].Name()).WithholdAndHoldTools?))
  }

  function FindingFor(c: Ctx, x: Item): Finding {
    if LeftOutOfBoundSet(c.v, c.w.bound, x) then OutsideBoundSet(x.Name()) else Unlicensed(x)
  }

  function AsFindings(c: Ctx, items: seq<Item>): seq<Finding> {
    seq(|items|, i requires 0 <= i < |items| => FindingFor(c, items[i]))
  }

  /** Loaded: covered, kept by a standalone gateway, or held because the gateway cannot run without it. */
  function LoadedKeys(c: Ctx, items: seq<Item>): set<string> {
    set i | i in items && (FateOf(c, i).Admit? || Falls(c, i, IsHeld)) :: i.Key()
  }

  predicate TakesBack(c: Ctx, items: seq<Item>, standing: Standing) {
    exists i :: i in items && FateOf(c, i).TakeBack? && StandingOf(c.v, c.resolved.claims, c.w.bound, i) == standing
  }

  function HoldFor(licence: Option<HoldReason>, licenceWaits: bool, boundWaits: bool): Option<HoldReason> {
    if licenceWaits && licence.Some? then
      Some(if boundWaits then AndNotBound(licence.value) else licence.value)
    else if boundWaits then Some(NotBound)
    else None
  }

  function CountsUntil(w: World, source: Source): Option<int> {
    if w.delivery.Delivered? && w.delivery.origin.CachedProven? && w.now < w.delivery.origin.until
       && source.FromPlatform?
    then Some(w.delivery.origin.until) else None
  }

  function Judge(c: Ctx, items: seq<Item>): Verdict {
    var refused := AsFindings(c, Select(c, items, IsRefused));
    var awaiting := AsFindings(c, Select(c, items, IsAwaited));
    if refused != [] || awaiting != [] then
      Refused(Refusal(c.resolved.claims.plan, refused, awaiting, c.resolved.hold))
    else
      var withheld := Select(c, items, IsWithheld);
      var held := Names(Select(c, items, IsHeld));
      Accepted(Outcome(
        c.resolved.status.(withheld := Names(withheld), held := held),
        LoadedKeys(c, items), AsWithheld(withheld), held,
        HoldFor(c.resolved.hold, TakesBack(c, items, Uncovered), TakesBack(c, items, LeftOut)),
        0, c.w.Attached(), CountsUntil(c.w, c.resolved.status.source)))
  }

  /** What `config` may load in world `w`, given what the gateway already runs. */
  function Gate(v: Vendor, config: Config, w: World, h: History): Verdict {
    var items := Items(v, config);
    match Resolve(v, config.block, w)
    case Ok(resolved) => Judge(Ctx(v, resolved, w, h), items)
    case Err(message) =>
      // Without items the error has nothing to refuse.
      if items == [] then Judge(Ctx(v, Resolved(v.community, COMMUNITY_STATUS, None), w, h), items)
      else Refused(Refusal("unresolved", [LicenceUnverifiable(message)], [], None))
  }

  // ----- The gate as it runs: two loops that fill a tally -----

  datatype Tally = Tally(
    admitted: set<string>, withheld: seq<Withheld>, held: seq<string>,
    refused: seq<Finding>, awaiting: seq<Finding>, licenceWaits: bool, boundWaits: bool)

  /** The answer for the items judged so far. */
  ghost function TallyOf(c: Ctx, done: seq<Item>): Tally {
    Tally(
      LoadedKeys(c, done),
      AsWithheld(Select(c, done, IsWithheld)),
      Names(Select(c, done, IsHeld)),
      AsFindings(c, Select(c, done, IsRefused)),
      AsFindings(c, Select(c, done, IsAwaited)),
      TakesBack(c, done, Uncovered),
      TakesBack(c, done, LeftOut))
  }

  /** What one judged item adds: its fate decides the only place it goes. */
  ghost function Added(c: Ctx, t: Tally, x: Item): Tally {
    match FateOf(c, x)
    case Admit => t.(admitted := t.admitted + {x.Key()})
    case Refuse => t.(refused := t.refused + [FindingFor(c, x)])
    case Await => t.(awaiting := t.awaiting + [FindingFor(c, x)])
    case TakeBack =>
      var marked :=
        if LeftOutOfBoundSet(c.v, c.w.bound, x) then t.(boundWaits := true) else t.(licenceWaits := true);
      if CanBeWithheld(x) then
        marked.(withheld := t.withheld + [Withheld(x.Name(), ShapeOf(x.Name()).WithholdAndHoldTools?)])
      else
        marked.(admitted := t.admitted + {x.Key()}, held := t.held + [x.Name()])
  }

  lemma SelectSnoc(c: Ctx, items: seq<Item>, x: Item, bucket: Bucket)
    ensures Select(c, items + [x], bucket) == Select(c, items, bucket) + (if Falls(c, x, bucket) then [x] else [])
  {
    assert (items + [x])[..|items|] == items;
  }

  lemma LoadedKeysSnoc(c: Ctx, items: seq<Item>, x: Item)
    ensures LoadedKeys(c, items + [x])
         == LoadedKeys(c, items) + (if FateOf(c, x).Admit? || Falls(c, x, IsHeld) then {x.Key()} else {})
  {
    assert x in items + [x];
    assert forall i :: i in items + [x] <==> i in items || i == x;
  }

  lemma TakesBackSnoc(c: Ctx, items: seq<Item>, x: Item, s: Standing)
    ensures TakesBack(c, items + [x], s) == (
      TakesBack(c, items, s)
      || (FateOf(c, x).TakeBack? && StandingOf(c.v, c.resolved.claims, c.w.bound, x) == s))
  {
    assert x in items + [x];
    assert forall i :: i in items + [x] <==> i in items || i == x;
  }

  lemma ListsSnoc(c: Ctx, items: seq<Item>, x: Item)
    ensures Names(items + [x]) == Names(items) + [x.Name()]
    ensures AsWithheld(items + [x])
         == AsWithheld(items) + [Withheld(x.Name(), ShapeOf(x.Name()).WithholdAndHoldTools?)]
    ensures AsFindings(c, items + [x]) == AsFindings(c, items) + [FindingFor(c, x)]
  {
  }

  /** One bucket's list grows by `x` exactly when `x` falls into it. */
  lemma BucketSnoc(c: Ctx, done: seq<Item>, x: Item, b: Bucket)
    ensures var before, after := Select(c, done, b), Select(c, done + [x], b);
      if Falls(c, x, b) then
        && Names(after) == Names(before) + [x.Name()]
        && AsWithheld(after) == AsWithheld(before) + [Withheld(x.Name(), ShapeOf(x.Name()).WithholdAndHoldTools?)]
        && AsFindings(c, after) == AsFindings(c, before) + [FindingFor(c, x)]
      else after == before
  {
    SelectSnoc(c, done, x, b);
    ListsSnoc(c, Select(c, done, b), x);
  }

  lemma TallySnoc(c: Ctx, done: seq<Item>, x: Item)
    ensures TallyOf(c, done + [x]) == Added(c, TallyOf(c, done), x)
  {
    BucketSnoc(c, done, x, IsRefused);
    BucketSnoc(c, done, x, IsAwaited);
    BucketSnoc(c, done, x, IsWithheld);
    BucketSnoc(c, done, x, IsHeld);
    LoadedKeysSnoc(c, done, x);
    TakesBackSnoc(c, done, x, Uncovered);
    TakesBackSnoc(c, done, x, LeftOut);
  }

  /** The tally once a plugin's fate is to be taken back; its shape says which list it joins. */
  method TakeBackPlugin(t: Tally, id: string) returns (r: Tally)
    ensures r == if CanBeWithheld(Plugin(id))
                 then t.(withheld := t.withheld + [Withheld(id, ShapeOf(id).WithholdAndHoldTools?)])
                 else t.(admitted := t.admitted + {Plugin(id).Key()}, held := t.held + [id])
  {
    var shape := ShapeOf(id);
    if shape.MustWait? {
      r := t.(admitted := t.admitted + {Plugin(id).Key()}, held := t.held + [id]);
    } else {
      r := t.(withheld := t.withheld + [Withheld(id, shape.WithholdAndHoldTools?)]);
    }
  }

  method JudgePlugin(c: Ctx, t: Tally, id: string) returns (r: Tally)
    ensures r == Added(c, t, Plugin(id))
  {
    var key := Plugin(id).Key();
    var loaded := key in c.h.admitted;
    var keepsLoaded := c.w.delivery.Standalone?;
    if c.w.bound.Some? && id != c.v.coordinator && id !in c.w.bound.value {
      var ran := loaded || id in c.h.withheld;
      if (ran || c.h.restart) && !keepsLoaded {
        r := TakeBackPlugin(t.(boundWaits := true), id);
      } else {
        r := t.(refused := t.refused + [OutsideBoundSet(id)]);
      }
      return;
    }
    if !c.v.violates(c.resolved.claims, id) {
      return t.(admitted := t.admitted + {key});
    }
    if (loaded && keepsLoaded) || c.v.admitsCoordinator(c.resolved.claims, id) {
      return t.(admitted := t.admitted + {key});
    }
    if c.resolved.hold.None? {
      r := t.(refused := t.refused + [Unlicensed(Plugin(id))]);
    } else if ShapeOf(id).MustWait? && !loaded && !c.h.restart {
      r := t.(awaiting := t.awaiting + [Unlicensed(Plugin(id))]);
    } else {
      r := TakeBackPlugin(t.(licenceWaits := true), id);
    }
  }

  method JudgeSurface(c: Ctx, t: Tally, feature: Feature, path: string) returns (r: Tally)
    ensures r == Added(c, t, Surface(feature, path))
  {
    var x := Surface(feature, path);
    var loaded := x.Key() in c.h.admitted;
    var keepsLoaded := c.w.delivery.Standalone?;
    if c.v.hasFeature(c.resolved.claims, feature) || (loaded && keepsLoaded) {
      r := t.(admitted := t.admitted + {x.Key()});
    } else if c.resolved.hold.None? {
      r := t.(refused := t.refused + [Unlicensed(x)]);
    } else if loaded || c.h.restart {
      r := t.(licenceWaits := true, admitted := t.admitted + {x.Key()}, held := t.held + [path]);
    } else {
      r := t.(awaiting := t.awaiting + [Unlicensed(x)]);
    }
  }

  /** The items added one by one, as the loops go. */
  ghost function AddedAll(c: Ctx, items: seq<Item>): Tally {
    if items == [] then Tally({}, [], [], [], [], false, false)
    else Added(c, AddedAll(c, items[..|items| - 1]), items[|items| - 1])
  }

  lemma {:induction false} AddedAllIsTally(c: Ctx, items: seq<Item>)
    ensures AddedAll(c, items) == TallyOf(c, items)
  {
    if items != [] {
      var most := items[..|items| - 1];
      AddedAllIsTally(c, most);
      TallySnoc(c, most, items[|items| - 1]);
      assert most + [items[|items| - 1]] == items;
    }
  }

  lemma AddedAllNext(c: Ctx, items: seq<Item>, i: nat)
    requires i < |items|
    ensures AddedAll(c, items[..i + 1]) == Added(c, AddedAll(c, items[..i]), items[i])
  {
    assert items[..i + 1][..i] == items[..i];
  }

  /** Judges every gated plugin. */
  method JudgePlugins(c: Ctx, gated: seq<Item>, ghost items: seq<Item>) returns (t: Tally)
    requires gated <= items && forall i :: i in gated ==> i.Plugin?
    ensures t == AddedAll(c, items[..|gated|])
  {
    t := Tally({}, [], [], [], [], false, false);
    for i := 0 to |gated|
      invariant t == AddedAll(c, items[..i])
    {
      assert items[i] == gated[i] && gated[i] in gated;
      t := JudgePlugin(c, t, gated[i].id);
      AddedAllNext(c, items, i);
    }
  }

  /** Judges every licensed surface, after the plugins. */
  method JudgeSurfaces(c: Ctx, start: Tally, surfaces: seq<Item>, ghost plugins: nat, ghost items: seq<Item>)
    returns (t: Tally)
    requires plugins <= |items| && items[plugins..] == surfaces && forall i :: i in surfaces ==> i.Surface?
    requires start == AddedAll(c, items[..plugins])
    ensures t == AddedAll(c, items)
  {
    t := start;
    for j := 0 to |surfaces|
      invariant t == AddedAll(c, items[..plugins + j])
    {
      assert items[plugins + j] == surfaces[j] && surfaces[j] in surfaces;
      t := JudgeSurface(c, t, surfaces[j].feature, surfaces[j].path);
      AddedAllNext(c, items, plugins + j);
    }
    assert items[..|items|] == items;
  }

  /** Decides what `config` may load; the loops compute exactly `Gate`. */
  method Evaluate(v: Vendor, config: Config, w: World, h: History) returns (verdict: Verdict)
    ensures verdict == Gate(v, config, w, h)
  {
    var gated := GatedPlugins(v, config.plugins);
    var surfaces := LicensedSurfaces(config);
    var resolution := Resolve(v, config.block, w);
    var resolved;
    if resolution.Ok? {
      resolved := resolution.value;
    } else if gated == [] && surfaces == [] {
      resolved := Resolved(v.community, COMMUNITY_STATUS, None);
    } else {
      return Refused(Refusal("unresolved", [LicenceUnverifiable(resolution.error)], [], None));
    }
    var c := Ctx(v, resolved, w, h);
    var t := JudgePlugins(c, gated, gated + surfaces);
    t := JudgeSurfaces(c, t, surfaces, |gated|, gated + surfaces);
    AddedAllIsTally(c, gated + surfaces);
    if t.refused != [] || t.awaiting != [] {
      return Refused(Refusal(resolved.claims.plan, t.refused, t.awaiting, resolved.hold));
    }
    var withheldNames := seq(|t.withheld|, i requires 0 <= i < |t.withheld| => t.withheld[i].pluginId);
    assert withheldNames == Names(Select(c, gated + surfaces, IsWithheld));
    return Accepted(Outcome(
      resolved.status.(withheld := withheldNames, held := t.held),
      t.admitted, t.withheld, t.held,
      HoldFor(resolved.hold, t.licenceWaits, t.boundWaits),
      0, w.Attached(), CountsUntil(w, resolved.status.source)));
  }
}
