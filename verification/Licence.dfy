/** What the licence gate reads: licences, deliveries, and the config it judges. */
module Licence {
  import opened Common

  // ----- The licence library -----

  datatype Role = Cloud | SelfHost

  datatype Audience = ForGateway | ForManagedGateway

  datatype TrustPolicy = TrustPolicy(audience: Audience, roles: set<Role>, enforceExpiry: bool)

  const CLOUD_POLICY := TrustPolicy(ForManagedGateway, {Cloud}, false)
  const SELF_HOST_POLICY := TrustPolicy(ForGateway, {SelfHost}, false)

  datatype Feature = EventsWebhooks | Dpop | InteractiveLogin | RichAuthorization

  datatype Claims = Claims(
    plan: string, exp: int, tenantSlug: string,
    entitlements: seq<string>, features: set<Feature>, nonProduction: bool)

  datatype VendorLicence = VendorLicence(role: Role, claims: Claims)

  datatype Verification =
    | Verified(licence: VendorLicence)
    | Failed(roleNotAccepted: bool, message: string)

  datatype Phase = Current | ExpiringSoon | InGrace

  datatype Term = Live(phase: Phase) | TermLapsed

  /** The licence library, as the gate sees it: its answers are parameters of the model. */
  datatype Vendor = Vendor(
    gated: string -> bool,                      // is_entitlement_gated
    violates: (Claims, string) -> bool,         // plugin_load_violation(..).is_some()
    admitsCoordinator: (Claims, string) -> bool,
    coordinator: string,                        // PLATFORM_COORDINATOR_PLUGIN
    hasFeature: (Claims, Feature) -> bool,
    verify: (string, TrustPolicy) -> Verification,
    community: Claims,
    enterpriseFeatures: set<Feature>,
    graceDays: Role -> int,
    graceEndsAfter: (int, int) -> int,
    phase: (int, int) -> Phase,                 // of (exp, now), before the grace ends
    calendarMin: int,                           // the timestamps a calendar date can hold
    calendarMax: int)
  {
    /** A term is lapsed exactly from the end of its grace on. */
    function TermAt(exp: int, now: int, days: int): Term {
      if now >= graceEndsAfter(exp, days) then TermLapsed else Live(phase(exp, now))
    }

    function Timestamp(secs: int): Option<int> {
      if calendarMin <= secs <= calendarMax then Some(secs) else None
    }

    /** What a clock can read: the gate's `now` always is such a time. */
    predicate ClockTime(t: int) {
      calendarMin <= t <= calendarMax
    }

    /** The gated plugins are first-party. */
    ghost predicate GatesFirstParty() {
      forall id: string :: gated(id) ==> FIRST_PARTY_ID_PREFIX <= id
    }
  }

  const FIRST_PARTY_ID_PREFIX := "dev.mcpg."

  // ----- Deliveries -----

  datatype Origin = Proven | Unproven | Cached | CachedProven(until: int) {
    /** What the origin amounts to at `now`: inside its window a kept proof is as good as a fresh one. */
    function At(now: int): Origin {
      match this
      case CachedProven(until) => if now < until then Proven else Cached
      case _ => this
    }

    predicate IsCached() {
      Cached? || CachedProven?
    }
  }

  datatype Delivery =
    | Standalone
    | Pending
    | Delivered(jwt: string, org: string, origin: Origin, refreshFailing: bool)
  {
    /** The delivery counts, at `now`, as one mcpg.cloud proved. */
    predicate ProvenAt(now: int) {
      Delivered? && origin.At(now).Proven?
    }
  }

  // ----- The config -----

  datatype PluginEntry = PluginEntry(id: string, ref: Option<string>, disabled: bool) {
    /** The artifact's manifest id, which the gate judges: `ref`, else the entry's own id. */
    function ManifestId(): string {
      match ref
      case Some(r) => r
      case None => id
    }
  }

  datatype BlockToken = NoToken | TokenRejected(message: string) | TokenVerified(licence: VendorLicence)

  /** The `license:` block, with the verification of its token already done. */
  datatype LicenceBlock = NoBlock | Block(nonProductionUse: bool, token: BlockToken)

  datatype IdentityProvider = IdentityProvider(issuer: string, login: bool)

  datatype AuthorizationServer = AuthorizationServer(
    idps: seq<IdentityProvider>, interactive: bool, dpop: bool, authorizationDetails: bool)

  datatype Config = Config(
    plugins: seq<PluginEntry>, block: LicenceBlock,
    eventsEnabled: bool, webhookEnabled: bool,
    dpop: Option<bool>, server: Option<AuthorizationServer>)

  // ----- Gated items -----

  const SERVER := "governance.access.authorization_server"
  const EVENTS_WEBHOOK_SURFACE := "mcp.configurations.events.webhook"
  const DPOP_SURFACE := "governance.access.dpop"

  datatype Item = Plugin(id: string) | Surface(feature: Feature, path: string) {
    function Key(): string {
      match this
      case Plugin(id) => "plugin:" + id
      case Surface(_, path) => "surface:" + path
    }

    function Name(): string {
      match this
      case Plugin(id) => id
      case Surface(_, path) => path
    }
  }

  /** The enabled entitlement-gated plugins of `plugins`, in order. */
  function GatedPlugins(v: Vendor, plugins: seq<PluginEntry>): (items: seq<Item>)
    ensures forall i :: i in items ==>
      i.Plugin? && v.gated(i.id) && exists e :: e in plugins && !e.disabled && e.ManifestId() == i.id
    ensures forall e :: e in plugins && !e.disabled && v.gated(e.ManifestId()) ==> Plugin(e.ManifestId()) in items
  {
    if plugins == [] then []
    else
      var e := plugins[0];
      (if !e.disabled && v.gated(e.ManifestId()) then [Plugin(e.ManifestId())] else [])
      + GatedPlugins(v, plugins[1..])
  }

  function LoginPath(issuer: string): string {
    SERVER + ".trusted_idps[`" + issuer + "`].login"
  }

  function LoginSurfaces(idps: seq<IdentityProvider>): (items: seq<Item>)
    ensures forall i :: i in items ==>
      i.Surface? && i.feature == InteractiveLogin && exists p :: p in idps && p.login && i.path == LoginPath(p.issuer)
    ensures forall p :: p in idps && p.login ==> Surface(InteractiveLogin, LoginPath(p.issuer)) in items
  {
    if idps == [] then []
    else
      (if idps[0].login then [Surface(InteractiveLogin, LoginPath(idps[0].issuer))] else [])
      + LoginSurfaces(idps[1..])
  }

  /** The surfaces of the embedded authorization server. */
  function ServerSurfaces(server: AuthorizationServer): (items: seq<Item>)
    ensures forall i :: i in items ==> i.Surface?
  {
    LoginSurfaces(server.idps)
    + (if server.interactive then [Surface(InteractiveLogin, SERVER + ".interactive")] else [])
    + (if server.dpop then [Surface(Dpop, SERVER + ".dpop")] else [])
    + (if server.authorizationDetails
       then [Surface(RichAuthorization, SERVER + ".authorization_details")] else [])
  }

  /** The config surfaces a licence feature withholds. */
  function LicensedSurfaces(c: Config): (items: seq<Item>)
    ensures forall i :: i in items ==> i.Surface?
  {
    (if c.eventsEnabled && c.webhookEnabled then [Surface(EventsWebhooks, EVENTS_WEBHOOK_SURFACE)] else [])
    + (if c.dpop == Some(true) then [Surface(Dpop, DPOP_SURFACE)] else [])
    + (if c.server.Some? then ServerSurfaces(c.server.value) else [])
  }

  /** Everything in a config that needs a licence, in the order the gate judges it. */
  function Items(v: Vendor, c: Config): (items: seq<Item>) {
    GatedPlugins(v, c.plugins) + LicensedSurfaces(c)
  }
}
