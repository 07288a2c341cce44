/** Which licence a gateway is judged against: its own block, a delivery, or the community tier. */
module Resolution {
  import opened Common
  import opened Licence

  datatype VerifyError =
    | IssuedToAnotherOrg(tenant: string, org: string)
    | CloudReadBackUnproven
    | CloudSentUnproven
    | Invalid(message: string)

  /** The reason an uncovered item is taken back or awaited, where without one it would be refused. */
  datatype HoldReason =
    | AwaitingDelivery
    | Unverified(error: VerifyError)
    | NotInPlan(plan: string)
    | Lapsed(expired: int, graceDays: int)
    | NotBound
    | AndNotBound(licence: HoldReason)
  {
    /** The reasons a boot gives a delivery time for. */
    predicate MayResolveByDelivery() {
      AwaitingDelivery? || Unverified?
    }

    /** The reason comes from a cell that is still as it was seeded. */
    predicate RestsOnCache(deliveryCached: bool, boundCached: bool) {
      match this
      case NotBound => boundCached
      case AndNotBound(_) => deliveryCached || boundCached
      case _ => deliveryCached
    }
  }

  datatype Source = FromBlock | FromPlatform | FromCommunity | FromNonProduction

  datatype State = IsCurrent | IsExpiring | IsInGrace | IsLapsed | IsPending | IsUnlicensed

  datatype Status = Status(
    plan: string, source: Source, state: State, refreshFailing: bool,
    expiresAt: Option<int>, graceEndsAt: Option<int>, nonProduction: bool,
    withheld: seq<string>, held: seq<string>)

  /** The licence one evaluation runs on: what items are checked against, and why the rest waits. */
  datatype Resolved = Resolved(claims: Claims, status: Status, hold: Option<HoldReason>)

  /** What the control plane has said, and when the gate looks. */
  datatype World = World(delivery: Delivery, bound: Option<set<string>>, now: int) {
    predicate Attached() {
      !delivery.Standalone?
    }
  }

  const COMMUNITY_STATUS :=
    Status("community", FromCommunity, IsUnlicensed, false, None, None, false, [], [])

  function StateOf(term: Term): State {
    match term
    case Live(Current) => IsCurrent
    case Live(ExpiringSoon) => IsExpiring
    case Live(InGrace) => IsInGrace
    case TermLapsed => IsLapsed
  }

  /** A licence that verified, resolved: its own claims while its term is live, the community tier from then on. */
  function ResolvedFrom(v: Vendor, licence: VendorLicence, source: Source, refreshFailing: bool, now: int): Resolved {
    var days := v.graceDays(licence.role);
    var exp := licence.claims.exp;
    var term := v.TermAt(exp, now, days);
    var state :=
      if licence.role.Cloud? && term.Live? && !term.phase.InGrace? then
        if refreshFailing then IsExpiring else IsCurrent
      else StateOf(term);
    var status := Status(
      licence.claims.plan, source, state, refreshFailing,
      v.Timestamp(exp), v.Timestamp(v.graceEndsAfter(exp, days)), licence.claims.nonProduction, [], []);
    if term.TermLapsed? then
      Resolved(v.community, status, Some(Lapsed(exp, days)))
    else
      Resolved(licence.claims, status, if source.FromPlatform? then Some(NotInPlan(licence.claims.plan)) else None)
  }

  /** A delivered licence: a cloud one for the enrolled org on a proven delivery, or a self-host one. */
  function VerifyDelivered(v: Vendor, token: string, org: string, origin: Origin): Result<VendorLicence, VerifyError> {
    match v.verify(token, CLOUD_POLICY)
    case Verified(licence) =>
      if licence.claims.tenantSlug != org then Err(IssuedToAnotherOrg(licence.claims.tenantSlug, org))
      else if origin.Proven? then Ok(licence)
      else if origin.IsCached() then Err(CloudReadBackUnproven)
      else Err(CloudSentUnproven)
    case Failed(true, _) => (
      match v.verify(token, SELF_HOST_POLICY)
      case Verified(licence) => Ok(licence)
      case Failed(_, message) => Err(Invalid(message)))
    case Failed(false, message) => Err(Invalid(message))
  }

  /** What each state of the delivery cell resolves to. */
  function ResolveDelivery(v: Vendor, delivery: Delivery, now: int): Resolved {
    match delivery
    case Standalone => Resolved(v.community, COMMUNITY_STATUS, None)
    case Pending =>
      Resolved(v.community, COMMUNITY_STATUS.(state := IsPending), Some(AwaitingDelivery))
    case Delivered(jwt, org, origin, refreshFailing) =>
      if Trim(jwt) == "" then
        Resolved(v.community, COMMUNITY_STATUS.(source := FromPlatform), Some(NotInPlan("community")))
      else
        match VerifyDelivered(v, Trim(jwt), org, origin.At(now))
        case Ok(licence) => ResolvedFrom(v, licence, FromPlatform, refreshFailing, now)
        case Err(e) =>
          Resolved(v.community, COMMUNITY_STATUS.(source := FromPlatform, state := IsPending), Some(Unverified(e)))
  }

  /** What the `license:` block alone resolves to; a rejected token is an error, no token is no licence. */
  function ResolveBlock(v: Vendor, block: LicenceBlock, now: int): Result<Option<Resolved>, string> {
    match block
    case NoBlock => Ok(None)
    case Block(nonProductionUse, token) =>
      if nonProductionUse then
        Ok(Some(Resolved(
          v.community.(entitlements := ["*"], features := v.enterpriseFeatures, plan := "non-production"),
          Status("non-production", FromNonProduction, IsUnlicensed, false, None, None, true, [], []),
          None)))
      else
        match token
        case NoToken => Ok(None)
        case TokenRejected(message) => Err(message)
        case TokenVerified(licence) => Ok(Some(ResolvedFrom(v, licence, FromBlock, false, now)))
  }

  /** The reason to wait that a proven delivery could lift from a gateway with a block. */
  function AwaitsProvenDelivery(v: Vendor, delivery: Delivery, now: int): Option<HoldReason> {
    match delivery
    case Standalone => None
    case Pending => Some(AwaitingDelivery)
    case Delivered(_, _, origin, _) =>
      match origin.At(now)
      case Cached => Some(AwaitingDelivery)
      case Unproven =>
        var hold := ResolveDelivery(v, delivery, now).hold;
        if hold.Some? && hold.value.MayResolveByDelivery() then hold else None
      case _ => None
  }

  function Resolve(v: Vendor, block: LicenceBlock, w: World): Result<Resolved, string> {
    if w.delivery.ProvenAt(w.now) || (block.NoBlock? && w.Attached()) then
      Ok(ResolveDelivery(v, w.delivery, w.now))
    else
      var awaiting := AwaitsProvenDelivery(v, w.delivery, w.now);
      match ResolveBlock(v, block, w.now)
      case Ok(Some(resolved)) => Ok(if awaiting.Some? then resolved.(hold := awaiting) else resolved)
      case Ok(None) => Ok(ResolveDelivery(v, w.delivery, w.now))
      case Err(e) =>
        if awaiting.Some? then
          Ok(Resolved(v.community, COMMUNITY_STATUS.(state := IsPending), awaiting))
        else Err(e)
  }
}
