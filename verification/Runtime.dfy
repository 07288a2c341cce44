/** What a gate leaves running, and how withheld plugins leave the config. */
module Runtime {
  import opened Common
  import opened Licence
  import opened Resolution
  import opened LicenceGate

  /** Why calls are refused: the tool gates withheld, the items held, and the reason both wait. */
  datatype ToolHold = ToolHold(gates: seq<string>, held: seq<string>, why: Option<HoldReason>)

  function ToolGates(withheld: seq<Withheld>): (ids: seq<string>)
    ensures ids == [] <==> forall x :: x in withheld ==> !x.holdsTools
  {
    if withheld == [] then []
    else (if withheld[0].holdsTools then [withheld[0].pluginId] else []) + ToolGates(withheld[1..])
  }

  function ToolHoldOf(o: Outcome): Option<ToolHold> {
    var gates := ToolGates(o.withheld);
    if gates == [] && o.held == [] then None else Some(ToolHold(gates, o.held, o.hold))
  }

  datatype Runtime = Runtime(
    admitted: set<string>, withheld: seq<string>, toolHold: Option<ToolHold>,
    generation: nat, lapsesAt: Option<int>, attached: bool)
  {
    /** What a reload of this runtime tells the gate it already runs. */
    function History(): History {
      LicenceGate.History(admitted, withheld, false)
    }
  }

  function Earliest(a: Option<int>, b: Option<int>): Option<int> {
    if a.None? then b else if b.None? then a else Some(Min(a.value, b.value))
  }

  /** When the gateway gates itself again, no delivery having come. */
  function LapsesAt(o: Outcome): Option<int> {
    if o.status.source.FromPlatform? && !o.status.state.IsLapsed? && o.admitted != {}
    then Earliest(o.status.graceEndsAt, o.countsUntil) else None
  }

  function RuntimeOf(o: Outcome): Runtime {
    Runtime(
      o.admitted,
      seq(|o.withheld|, i requires 0 <= i < |o.withheld| => o.withheld[i].pluginId),
      ToolHoldOf(o), o.generation, LapsesAt(o), o.attached)
  }

  function WithheldIds(o: Outcome): set<string> {
    set x | x in o.withheld :: x.pluginId
  }

  /** `plugins` with the withheld ones left in place, disabled. */
  function Disabled(plugins: seq<PluginEntry>, ids: set<string>): (r: seq<PluginEntry>) {
    seq(|plugins|, i requires 0 <= i < |plugins| =>
      if plugins[i].ManifestId() in ids then plugins[i].(disabled := true) else plugins[i])
  }

  predicate NamesWithheld(withheld: seq<Withheld>, id: string) {
    exists x :: x in withheld && x.pluginId == id
  }

  /** Takes withheld plugins out of the config in place. */
  method WithholdPlugins(plugins: array<PluginEntry>, o: Outcome)
    modifies plugins
    ensures plugins[..] == Disabled(old(plugins[..]), WithheldIds(o))
  {
    for i := 0 to plugins.Length
      invariant forall k :: 0 <= k < i ==>
        plugins[k] == (var e := old(plugins[k]); if e.ManifestId() in WithheldIds(o) then e.(disabled := true) else e)
      invariant forall k :: i <= k < plugins.Length ==> plugins[k] == old(plugins[k])
    {
      if NamesWithheld(o.withheld, plugins[i].ManifestId()) {
        plugins[i] := plugins[i].(disabled := true);
      }
    }
  }
}
