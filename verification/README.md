# mcpg verification

A Dafny model of the decision and protocol core of the mcpg gateway, with proofs about every input, every run and
every reachable state. `dafny verify dfyconfig.toml` checks the whole project.

## What is modelled

| files | subject |
|---|---|
| `Licence`, `Resolution`, `LicenceGate`, `Runtime` | the licence gate: which licence counts, what a config may load, what is withheld, held or refused, and the state a running gateway keeps |
| `GateTheorems`, `Coverage`, `FailClosed`, `LicenceLifetime`, `GatewayRuns`, `LicenceWatch`, `Counterexamples` | what holds of the gate over restarts, clocks, deliveries, reloads and re-gates |
| `Platform`, `Interleaving`, `BootGate`, `BootWaits` | the process-wide cells, their writers and readers step by step, and the boot loop with its deadline |
| `StoreListing`, `Presence` | cursor pagination: another store's pages re-cut to a limit, and a sorted row set paged by last id |
| `FileWatch`, `WatcherGaps` | the polling reload watcher, with writers, fingerprints and reloads interleaved file by file |
| `SchemaText`, `ConfigOverlay`, `Json` | JSON transformations: doc text stripped to a normal form, layered merging |
| `OciReference`, `OciPulls` | plugin OCI references: platform expansion, normalising, mirrors, digest pins, the order of pulls |

The licence library is outside the repository. It is a `Vendor` value: a record of functions nothing is assumed about.
Where a theorem needs something of it, the theorem says so: `GatesFirstParty` (gated plugins are first-party) and
`ClockTime` (the clock reads a time the calendar can represent). A term is lapsed exactly from the end of its grace on
(`Vendor.TermAt`). The control plane's deliveries, its bound plugin set, clocks, the file system and the plugin store
are parameters, so every theorem is about all of them.

`Gate` says item by item what the gate answers. `Evaluate` is the gate as it runs, two loops that fill a tally, and is
proved to compute `Gate`. A history of what ran before enters `Gate` only in `FateOf`, and the central lemma
`AcceptedIsLanding` shows that in an accepted answer of an attached gateway it makes no difference.

## Where the code does less than it says

- A reload stores its config as the base before the runtime is built (`src/app/reload.rs:58`), while the comment on
  `reload_config_from_yaml` says that any error keeps the prior config. After a build that fails, the base and the
  runtime are out of step, and a later delivery can get the gateway refused on its own base
  (`Counterexamples.FailedBuildRefusesItself`). `GatewayRuns.FailedBuildSafeIff` says exactly when it cannot, and
  `GatewayRuns.BuildRestoresStep` that the next reload that builds repairs it.
- A re-gate that changes nothing keeps the old runtime, and with it the old `lapses_at`, or none
  (`src/runtime/cp/attach.rs:101-102`), while the module header promises a re-gate when the delivered licence's grace
  ends. After a renewal the old timer fires for nothing and the new grace end is not acted on
  (`Counterexamples.RenewalOutlivesItsTimer`); a delivery that takes over from the gateway's own block has no timer at
  all (`Counterexamples.DeliveryTakesOverWithoutTimer`). `LicenceWatch.KeptRuntimeTimelyIff` gives the exact condition,
  and `LicenceWatch.KeptLossGatedIff` says when a given tick acts on a given loss. The timer of a runtime that was
  replaced is always in time (`LicenceWatch.FreshTimerIsTimely`).
- A restarted gateway that has not been delivered a licence, and whose bound set leaves a plugin out, does not wait for
  the licence that would cover another (`Counterexamples.HalfBoundRestartDoesNotWait`): the combined hold reason is not
  one a delivery resolves (`src/license_gate.rs:263-265`), while the module header has a boot held
  for every item that a delivery may still cover. `BootWaits.UndeliveredRestartWaitsIff` gives the exact condition,
  and `BootWaits.WaitsIffOpen` says it for every view.
- A first-party reference with both a dotted tag and a digest has the dots of its tag rewritten, although tag and
  digest are said to be split off first (`src/app/oci_wiring.rs:294-296`). `OciReference.DigestedTagIsRewritten` names
  the family and `OciReference.CanonicalKeepsTagIff` the exact condition. The pin itself always survives.
- A watched file that is written between its fingerprint and the reload that follows, and then put back, leaves the
  gateway on what it held in between. `WatcherGaps.GoesStaleIff` says exactly which histories of the watched files can
  do this.
- Merging layers is not associative. `ConfigOverlay.MergeAssociativeIff` gives the exact condition.
- Presence paging can lose rows when two share an id; `Presence.PagingIsCompleteIff` states both directions.

## Model

| member | source | states |
|---|---|---|
| LicenceGate.Evaluate | src/license_gate.rs:615-791 | the loops over plugins and surfaces answer as `Gate` decides item by item: same refusal, or same loaded, withheld, held items, hold reason and status, for every history |
| LicenceGate.JudgePlugin | src/license_gate.rs:693-733 | one plugin changes the tally by exactly its fate |
| LicenceGate.JudgeSurface | src/license_gate.rs:734-753 | one surface changes the tally by exactly its fate; a surface is never withheld |
| Coverage.SurfaceJudged | src/license_gate.rs:734-753 | in every world a surface whose feature the claims in force have is loaded, never held, and no part of a refusal; without it an accepted attached gateway holds it, and a standalone one had it loaded |
| Coverage.PluginJudged | src/license_gate.rs:693-733 | in every world a plugin in the bound set that the library lets the claims load, or admits as coordinator, is loaded and no part of a refusal; any other is held or withheld by its shape, or kept by a standalone gateway that had it |
| Coverage.AddedOutsideSetRefused | src/license_gate.rs:696-719 | a plugin the bound set leaves out, that the gateway neither ran nor restarts into, is named in the refusal |
| Coverage.OwnLicenceRefuses | src/license_gate.rs:723-733 | an uncovered item that a standalone config adds refuses it, while the licence gives no reason to wait |
| Coverage.StandaloneKeepsLoaded | src/license_gate.rs:667-672 | what a standalone gateway runs stays loaded and blameless whatever becomes of the licence |
| Coverage.StandaloneReloads | src/license_gate.rs:667-672 | a standalone reload that adds no gated item is accepted and takes nothing back |
| Coverage.ShapeFamilies | src/license_gate.rs:321-337 | payment and tool-gate plugins are withheld with calls refused, and backends, credentials and secrets simply withheld, whatever follows in their name |
| Coverage.ShapeOthers | src/license_gate.rs:321-337 | but for two tool gates by name, every plugin outside those families must wait |
| Coverage.JudgedByArtifact | src/license_gate.rs:619-633 | a plugin is gated if and only if an enabled entry refers to it, or is called so and refers to nothing |
| Coverage.SurfacesIff | src/license_gate.rs:94-137 | which surfaces of a config need which feature, under which path, both ways |
| Coverage.NonProductionGrants | src/license_gate.rs:971-978 | where no delivery is proven, non-production use gives the claims every entitlement and the enterprise features |
| Coverage.NonProductionLoadsAll | src/license_gate.rs:971-978 | so, if the library grants what claims list, every such config is accepted with nothing withheld, held or waiting |
| Coverage.BlockLicenceRules | src/license_gate.rs:855-902 | where no delivery is proven, a verified token is what items are checked against until its grace ends, and the community tier after |
| Coverage.RejectedTokenRefusesIff | src/license_gate.rs:636-659 | a rejected token refuses a standalone config if and only if it has gated items, and says why |
| Coverage.SelfHostDeliveryRules | src/license_gate.rs:1049-1081 | a delivered self-host licence is what items are checked against from any origin until its grace ends, and its end is the one reported |
| Coverage.NothingDelivered | src/license_gate.rs:998-1044 | with nothing delivered, an empty licence or one that does not verify, the community tier counts, and each has its own reason and status |
| Coverage.KeptProofCountsUntil | src/license_gate.rs:204-210 | a cloud licence on a kept proof is what items are checked against until the window or its grace ends, and the community tier after |
| Coverage.CloudStatus | src/license_gate.rs:855-902 | what is reported of a cloud licence that counts: its state by clock, phase and refresh, its plan and its dates |
| GateTheorems.AcceptedIsLanding | src/license_gate.rs:615-791 | an accepted attached gateway loads, withholds and holds exactly what a restart in the same world does, whatever ran before |
| GateTheorems.HistoryIndependence | src/license_gate.rs:671-791 | two accepted answers in the same world agree, whatever the two histories were |
| GateTheorems.DeliveryAlwaysHolds | src/license_gate.rs:998-1044 | without its own block, or on a proven delivery, an attached gateway always resolves to its delivery, with a reason why the rest waits |
| GateTheorems.LandingAccepts | src/license_gate.rs:693-753 | a restart is accepted wherever the licence gives a reason to wait |
| GateTheorems.LandingAgrees | src/license_gate.rs:615-791 | where a restart lands depends on the world only through the claims it resolves to and the bound set |
| FailClosed.EveryItemSettled | src/license_gate.rs:680-753 | in every accepted attached answer each gated item is exactly one of covered, withheld and held; what must wait is never withheld, and what can be withheld is never held |
| FailClosed.HoldIffWaiting | src/license_gate.rs:754-791 | a hold reason is given if and only if something waits |
| FailClosed.ServesOnlyFailClosed | src/license_gate.rs:470-501 | with no tool hold nothing is held, and only backends, credentials and secrets are withheld |
| Coverage.ServesIff | src/license_gate.rs:470-501 | calls are served if and only if nothing is held and no withheld plugin is a tool gate |
| FailClosed.EnabledMeansCoveredOrHeld | src/license_gate.rs:796-803 | after withholding, every gated plugin left enabled is covered, or held while calls are refused |
| Coverage.OthersStayEnabled | src/license_gate.rs:796-803 | an entry that is not gated, or is covered, stays as it is, and of any other nothing but the flag changes |
| FailClosed.NamesTellItemsApart | src/license_gate.rs:94-137 | the names and keys of gated items never collide, across plugins and surfaces |
| Runtime.WithholdPlugins | src/license_gate.rs:796-803 | disables in place exactly the withheld plugins and changes nothing else |
| GatewayRuns.RegateAcceptedIff | src/license_gate.rs:1730-1753 | for a gateway that accounts for its config a re-gate is accepted if and only if the licence gives a reason to wait or nothing is uncovered |
| GatewayRuns.RegateIsFixpoint | src/license_gate.rs:1814-1822 | re-gating an unchanged world gives the same answer and reports no change |
| GatewayRuns.NoChangeMeansSame | src/license_gate.rs:1814-1822 | a re-gate that reports no change withholds and holds what the runtime does, and refuses calls for the same reason |
| GatewayRuns.AcceptedCovers | src/license_gate.rs:1825-1852 | the runtime made of an accepted answer accounts for every gated item of its config |
| GatewayRuns.RunStaysInStep | src/app/reload.rs:35-61 | after any reloads and re-applies that do not fail to build, the runtime accounts for the base config |
| GatewayRuns.BuildRestoresStep | src/app/reload.rs:42-61 | a reload that builds puts base and runtime in step again, whatever failed before |
| GatewayRuns.InStepNeverRefuses | src/license_gate.rs:1730-1753 | in step and with no block, or on a proven delivery, a gateway is accepted in every world, and lands where a restart would |
| GatewayRuns.NeverRefusesItself | src/license_gate.rs:1730-1753 | over every run of reloads, deliveries, bound sets and clocks without a failed build, a gateway once accepted is accepted on every later re-gate |
| GatewayRuns.AttachedAsBooted | src/license_gate.rs:1725-1753 | through every run of reloads a gateway stays attached or standalone as it booted, whatever the configs say |
| GatewayRuns.NeverRefusedIff | src/app/reload.rs:51-61 | for any config with no block, no delivery, bound set or clock gets a runtime refused if and only if every gated item is safe: one a bound set can leave out was run; any other is loaded, can be withheld, or is covered by the community tier and every licence a delivery can carry |
| GatewayRuns.FailedBuildSafeIff | src/app/reload.rs:51-61 | the same of every runtime a gate made, whatever config a failed build left as its base |
| Counterexamples.FailedBuildRefusesItself | src/app/reload.rs:51-61 | a run in which a reload passes the gate, fails to build, and the gateway is then refused on its own base |
| LicenceLifetime.BlockIgnoredUnderProof | src/license_gate.rs:904-950 | on a proven delivery the `license:` block changes nothing in the answer |
| LicenceLifetime.CloudLicenceNonInterference | src/license_gate.rs:1049-1081 | unless the delivery is proven and names the enrolled org, what a cloud licence grants influences no answer, status or schedule, and nothing at all but the org it names shows in a hold reason |
| LicenceLifetime.CountingCloudLicenceRules | src/license_gate.rs:855-902 | a cloud licence that counts is what items are checked against until its grace ends, and the community tier after |
| LicenceLifetime.RestartLands | src/license_gate.rs:204-210 | a restart that reads its delivery back, one sent to the process before or one that process had read back itself, is accepted and runs what that gateway ran |
| LicenceLifetime.RegateNeverLate | src/license_gate.rs:1836-1847 | up to the scheduled time a re-gate of the running gateway is accepted, gives the same items, reports no change, and is where a restart lands |
| LicenceLifetime.NoTimerNoLoss | src/license_gate.rs:1836-1847 | where nothing is scheduled for a gateway with no block, or on a delivered licence that has not lapsed, the passing of time takes no coverage away |
| LicenceLifetime.LateRestartLands | src/license_gate.rs:774-780 | a restart any time before the scheduled re-gate lands where the gateway was |
| LicenceWatch.FreshTimerIsTimely | src/runtime/cp/attach.rs:151-231 | a runtime gated on the delivery in force is due by the time anything covered loses its licence, whatever the watch acted on before |
| LicenceWatch.WatchFallsQuiet | src/runtime/cp/attach.rs:151-178 | once a tick has acted on a timer and a generation, no later tick is due on them |
| LicenceWatch.RetainedTimerDueIff | src/runtime/cp/attach.rs:151-231 | for any runtime, watch and ticks, a tick is due if and only if the timer is the first thing to pass and was not acted on, or it is the first tick of a new generation |
| LicenceWatch.KeptRuntimeTimelyIff | src/runtime/cp/attach.rs:96-129 | after a re-gate that keeps the runtime, the first tick at or past the schedule that re-gate would set is due, however ticks fall, if and only if the kept timer names that time and was not acted on |
| LicenceWatch.KeptLossGatedIff | src/runtime/cp/attach.rs:96-129 | when something the re-gate covered is lost by a tick, its own schedule named a time by then, and the tick is due if and only if the kept timer falls between the ticks before and it, or a generation is new |
| Counterexamples.RenewalOutlivesItsTimer | src/runtime/cp/attach.rs:96-129 | a run from the watch's first tick in which a renewal's grace ends, the gate would withhold a running plugin, and no tick is ever due |
| Counterexamples.DeliveryTakesOverWithoutTimer | src/runtime/cp/attach.rs:96-129 | a run in which a proven delivery takes over from the gateway's own block without a change, and its grace end is never acted on for want of a timer |
| Platform.VerifiedNeverDisplaced | src/license_gate.rs:1440-1469 | once the cell holds a live licence that verifies, it does after every sequence of deliveries |
| Platform.LastCountingInForce | src/license_gate.rs:1456-1468 | after every sequence of deliveries the cell carries the last that verified, as it came or as a re-send of a proven word; if none did, a cell that verified is untouched and any other holds the last one sent |
| Platform.ProofOutlivesResends | src/license_gate.rs:1476-1501 | a proven cell is still proven, with the same word, after any chain of re-sends of it |
| Platform.CachedProofSurvivesIff | src/license_gate.rs:1440-1469 | after every sequence of deliveries a licence on a kept proof is still in the cell if and only if each was proven and did not verify while the kept one did |
| Platform.SeedGivesWay | src/license_gate.rs:1440-1455 | the first delivery that does not leave the seed in place replaces it as it came, and the run goes on from there |
| Platform.ProvenanceNeverInvented | src/license_gate.rs:1440-1501 | a proven cell carries a licence and an org some delivery this process judged proven carried; a cached cell is the seed |
| Platform.Cells.SetDelivery | src/license_gate.rs:1416-1423 | the generation moves if and only if the cell does |
| Platform.Cells.ReceiveDelivery | src/license_gate.rs:1440-1469 | the cell becomes what `Received` says, provenance stays honest, and the generation moves if and only if the cell does |
| Platform.Cells.SetBoundPlugins | src/license_gate.rs:1526-1538 | the bound set is stored and no longer counts as cached; the generation moves for a new set, and for the first word after a seed |
| Platform.Cells.SeedFromCache | src/license_gate.rs:1545-1555 | a seed fills the cells, becomes the only cached delivery, marks the process restarted, and moves the generation once for each cell it changes |
| Interleaving.RunKeepsInv | src/license_gate.rs:1369-1386 | every interleaving of writers, gates and the boot loop, store and increment apart, keeps the ordering invariant |
| Interleaving.NoLostUpdate | src/license_gate.rs:1734-1751 | with no writer between its store and its increment, a runtime whose generation is current was gated on the current delivery and bound set |
| Interleaving.NoMissedWakeup | src/license_gate.rs:1660-1716 | a boot blocked un-notified, with no notification on its way, has evaluated the cells in force |
| Interleaving.DeliveryWritten | src/license_gate.rs:1416-1423 | an undisturbed writer stores the delivery, counts it once and wakes the boot, or does nothing when it is the same |
| Interleaving.BoundWritten | src/license_gate.rs:1526-1538 | an undisturbed writer stores the bound set and takes the flag, and counts and wakes if either changed |
| Interleaving.GateInstalled | src/license_gate.rs:1734-1751 | an undisturbed gate installs a runtime that read the cells in force and changes nothing else |
| Interleaving.BootBlocked | src/license_gate.rs:1660-1716 | an undisturbed boot blocks un-notified on the cells in force |
| BootGate.BootDeadline | src/license_gate.rs:1645-1652 | the deadline lies between the wait and MAX_SLOT_WAIT past it, is moved only by a slot, and covers a slot that frees in time |
| BootGate.GateAtBoot | src/license_gate.rs:1654-1718 | over every history of views the loop answers with the first that need not wait, none that waited started at or past the bound, and an answer a delivery could change is returned only past the deadline |
| BootWaits.GateConfigAtBoot | src/license_gate.rs:1654-1718 | a booting gateway answers with the gate of the first view that is not still open, or that it looks at past its deadline; every view before was still open and in time |
| BootWaits.WaitsIffOpen | src/license_gate.rs:1682-1703 | the loop waits on a view if and only if it is still open, said of the config, its block, the delivery, the bound set and what was read back |
| BootWaits.OpenIff | src/license_gate.rs:904-968 | a licence could still come, or gives a reason to wait, or is unresolved, exactly for these blocks and deliveries |
| BootWaits.FirstStartWaitsForLicence | src/license_gate.rs:1682-1703 | with no block and nothing left out, a first start waits if and only if nothing that verifies was delivered and the community tier leaves an item uncovered |
| BootWaits.RestartWaitsOnCache | src/license_gate.rs:1682-1703 | a restart waits while a cached delivery leaves an item uncovered, or a cached bound set leaves one out |
| BootWaits.VerifiedNeverWaits | src/license_gate.rs:1682-1703 | on a live delivery that verifies, with a bound set that was sent, no boot waits |
| BootWaits.UndeliveredRestartWaitsIff | src/license_gate.rs:269-276 | a restart with no delivery and a bound set that was sent waits for what is uncovered if and only if the set leaves nothing out |
| Counterexamples.HalfBoundRestartDoesNotWait | src/license_gate.rs:263-276 | a restart that does not wait for the licence that would cover its plugin, because the bound set leaves out another |
| StoreListing.ListPage | src/app/plugin_kv_adapter.rs:130-179 | one page is `PageAt`: at most max(limit, 1) entries, the store's page cut with a cursor that says how far, errors included |
| StoreListing.PageAdvances | src/app/plugin_kv_adapter.rs:130-179 | a page takes the next entries in order and its cursor stands exactly after them, or is none at the end |
| StoreListing.RecutIsLossless | src/app/plugin_kv_adapter.rs:130-179 | following cursors with any limits never fails, returns a prefix of the store's items, and ends with all of them once enough pages were asked for |
| StoreListing.FailureFailsWalk | src/app/plugin_kv_adapter.rs:130-179 | a page that fails at any call of the walk fails the walk with its error; it is never taken for the end |
| StoreListing.ListPrefix | src/app/plugin_kv_adapter.rs:181-209 | the walk returns `Listed`: the first max(limit, 1) items, or all there are, and it fails if and only if the store fails first |
| StoreListing.RecutAgreesWithPrefix | src/app/plugin_kv_adapter.rs:130-209 | what following cursors with any limits collects is what the simple walk returns asked for as many; once done, also asked for more |
| Presence.SortSorts | src/admin/presence.rs:229 | rows end up in id order |
| Presence.LessIsLexicographic | src/admin/presence.rs:229 | ids are ordered by the first place they differ, a prefix first |
| Presence.PageTakesNext | src/admin/presence.rs:243-263 | a page holds the next rows in id order, at most 500, and has no cursor if and only if they are the last |
| Presence.LimitHonoured | src/admin/presence.rs:243-263 | a page holds as many rows as asked for, between 1 and 500, or 100, while so many are left |
| Presence.PagingIsComplete | src/admin/presence.rs:229-263 | with distinct ids, following cursors with any limits ends with every row once, in id order |
| Presence.PagingIsCompleteIff | src/admin/presence.rs:229-263 | paging is complete for every choice of limits if and only if no two rows share an id |
| FileWatch.FingerprintPaths | src/app/config_watch.rs:103-121 | one entry per path in order, with no digest for a file that cannot be read |
| FileWatch.DiffPaths | src/app/config_watch.rs:123-136 | the loop lists exactly the paths whose digests differ, in order |
| FileWatch.Differing | src/app/config_watch.rs:123-136 | a path is listed if and only if its digests differ; the list is empty if and only if all agree |
| FileWatch.DiffKeysExact | src/app/secrets_watch.rs:95-106 | the reported names are exactly those added, removed or rewritten, and none are if and only if the snapshots are equal |
| FileWatch.RunKeepsInv | src/app/config_watch.rs:138-218 | over every interleaving the baseline is at most what is loaded, and that at most what the file holds |
| FileWatch.QuietTickIsCurrent | src/app/config_watch.rs:138-218 | when contents never return and digests are injective, a scan that sees no delta found every file at the version loaded |
| FileWatch.DeltaStaysVisible | src/app/config_watch.rs:210-216 | until a reload succeeds every full scan sees a file past the baseline, however many reloads failed |
| FileWatch.QuietReloadLoadsCurrent | src/app/reload.rs:8-20 | once writers stop, a successful reload loads what every file holds |
| WatcherGaps.GoesStaleIff | src/app/config_watch.rs:103-218 | for any list of watched files, some run comes to a quiet scan over a stale config if and only if one file's content changes and returns, and that file before, or another at all, changes |
| WatcherGaps.ReturningContentHidesChange | src/app/config_watch.rs:138-218 | one file with four versions that does |
| WatcherGaps.OtherFileHidesChange | src/app/config_watch.rs:138-218 | a file that only leaves its first content and returns, beside one whose change triggers the reload |
| SchemaText.StripDocText | src/capabilities.rs:78-104 | the loops compute the stripped form |
| SchemaText.NamesSurvive | src/capabilities.rs:81-95 | every key but the keyword survives, and every named field does, one called `description` too |
| SchemaText.DescriptionSurvivesIff | src/capabilities.rs:81-95 | a field called `description` survives under the four keywords that name fields and is dropped under any other |
| SchemaText.StripIdempotent | src/capabilities.rs:78-104 | stripping again changes nothing |
| SchemaText.SameContractIff | src/capabilities.rs:78-104 | two schemas strip to the same form if and only if edits of `description` keywords alone turn one into the other |
| ConfigOverlay.DeepMerge | src/app/config_overlay.rs:61-77 | the key-by-key loop computes the merge |
| ConfigOverlay.ApplyConfigOverlay | src/app/config_overlay.rs:33-57 | the snapshots are merged in order onto nothing, and the first failure is the result |
| ConfigOverlay.MergeAt | src/app/config_overlay.rs:61-77 | what a merge holds at every path, in terms of the two layers |
| ConfigOverlay.LastWordStands | src/app/config_overlay.rs:40-51 | at a path where a layer holds anything but an object and later layers are silent, the merged config holds that value |
| ConfigOverlay.MergeOntoNothing | src/app/config_overlay.rs:37 | the empty object is a left identity |
| ConfigOverlay.MergeTwice | src/app/config_overlay.rs:61-77 | merging the same overlay again changes nothing |
| ConfigOverlay.MergeAssociativeIff | src/app/config_overlay.rs:40-51 | three layers merge the same in both groupings if and only if no common path holds object, other, object, unless the last hides the first |
| ConfigOverlay.GroupingMatters | src/app/config_overlay.rs:61-77 | three layers for which the groupings differ |
| OciReference.DigestIsPin | src/app/oci_wiring.rs:451-461 | the digest read from a reference is the 64 hex digits it ends in after `@sha256:`, if and only if it ends so |
| OciReference.ConcreteIff | src/app/oci_wiring.rs:413-447 | a reference is expanded to itself alone if and only if it holds an `@` or a platform tag |
| OciReference.CandidatesAreConcrete | src/app/oci_wiring.rs:413-447 | no candidate is expanded again, for any reference |
| OciPulls.NativeFirst | src/app/oci_wiring.rs:413-447 | a reference that is expanded names its own tag, or the protocol's, for this platform first and for the portable one second |
| OciPulls.PlatformTagIff | src/app/oci_wiring.rs:396-400 | a tag is a platform's if and only if it is one of the table or ends in one after a dash |
| OciPulls.PublishedPlatforms | src/app/oci_wiring.rs:346-356 | the table holds exactly every system with every machine, and the portable platform |
| OciReference.CanonicalKeepsPin | src/app/oci_wiring.rs:293-317 | canonicalising a first-party repository keeps the pin |
| OciPulls.FirstPartyNamed | src/app/oci_wiring.rs:293-317 | a first-party id as repository loses its prefix and gets dashes for dots; path, tag and digest stay |
| OciPulls.OthersUnnamed | src/app/oci_wiring.rs:293-317 | any other repository is left as written |
| OciReference.CanonicalKeepsTagIff | src/app/oci_wiring.rs:293-317 | it keeps the tag if and only if the reference is not a first-party name with a dotted tag before a digest |
| OciReference.DigestedTagIsRewritten | src/app/oci_wiring.rs:297-298 | every first-party name with a dotted tag and a digest gets another tag |
| OciReference.NormalKeepsPin | src/app/oci_wiring.rs:319-340 | normalising keeps the pin, and its result always has a registry part |
| OciPulls.QualifiedKeepsRegistry | src/app/oci_wiring.rs:319-340 | a reference whose first segment has a dot, a port or is the local host keeps it as registry, with or without the scheme |
| OciPulls.UnqualifiedGetsDefault | src/app/oci_wiring.rs:319-340 | any other is pulled from the default registry |
| OciReference.MirrorKeepsPin | src/app/oci_wiring.rs:518-528 | a rewrite for a mirror keeps pin and tag |
| OciPulls.MirrorReplacesRegistry | src/app/oci_wiring.rs:518-528 | at a mirror a reference is the mirror, one slash and what followed its registry, whatever slashes stood at the seam |
| OciReference.AttemptRefs | src/app/oci_wiring.rs:164-181 | the nested loops list each candidate at every mirror, then at its own registry, before the next |
| OciPulls.AttemptAt | src/app/oci_wiring.rs:164-181 | the place of every attempt in the list, by candidate and mirror |
| OciPulls.AttemptsOfCandidate | src/app/oci_wiring.rs:76-181 | every attempt of a candidate pulls the same repository, tag and digest: from each mirror in order, then from its own registry |
| OciReference.EveryPullKeepsPin | src/app/oci_wiring.rs:76-181 | for every reference, default registry and mirror list, every attempt pins the digest of the configured reference, or none |
| OciReference.EveryPullIsPlatformed | src/app/oci_wiring.rs:76-181 | without an `@`, every attempt at every registry is tagged for one platform |
| OciReference.PublishedPullIsPlatformed | src/app/oci_wiring.rs:346-356 | the same for every platform of the token table, with nothing left to assume of it |

## Left out

- Signatures, JWTs and delivery proofs: results of the licence library; a delivery arrives with its origin judged.
- Log lines, metrics, published status, report text and dates; hold reasons and the tool hold are structured values instead of sentences.
- Reading `license.token` from the environment, secrets or files: the verified, rejected or missing token is an input.
- SchemaText.StripDocText: works on values, so update in place of one JSON tree is not captured.
- ConfigOverlay.DeepMerge: works on values, so update in place is not captured; the source versions of the outcome are left out.
- LicenceGate.Evaluate: the tally is a value the loops reassign, not variables a closure mutates.
- StoreListing.ListPage: the conversion of each stored value to an entry is left out, and the skip count is unbounded.
- BootGate.GateAtBoot: takes the views of its iterations as input, with one at or past the bound on all deadlines, since the clock goes on.
- Interleaving.NoLostUpdate: holds short of 2^64 changes between two readings of the counter, which wraps.
- LicenceWatch.FreshTimerIsTimely: is about gateways with no block, or on a delivered licence that has not lapsed; nothing is scheduled for the end of a block's own licence.
- LicenceWatch.RetainedTimerDueIff: the backoff between failed re-gates is not modelled, only ticks whose re-gate succeeds.
- FileWatch.QuietTickIsCurrent: assumes no write between the boot's load and the first fingerprints, and no other reload trigger.
- OciReference.AttemptRefs: the credentials of each attempt, the pull loop and the cache are left out.
- OciReference.EveryPullKeepsPin: takes the native platform and protocol major, constants of the build, to hold no `/` and no `@`.
- Presence.SortSorts: the library sort is modelled as a stable insertion sort; gathering the rows and the counting answer are left out.
- The pull loop that tries the attempts in turn and reports the last error: would only add easy members.
- The secrets watcher follows the protocol of the config watcher; only its own diff is modelled beside it.
- Idempotence of normalising: it does not hold for bare dotted ids, which the first pass leaves alone.
- `put_if_absent` and `incr` on the store adapter: documented as not atomic.
- Admin handlers, auth, policy and cache wiring, sidecars, the CLI and health probes: plumbing, or properties one branch settles.
- `FederatedCatalog` and `redact_sensitive`: would only add easy members.
