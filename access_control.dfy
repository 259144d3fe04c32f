/** Claims and permission tiers of a chat participant (src/controllers/accesscontrol.ts).
    Claims are recomputed from the attributes the host attaches to every user,
    message and tip event; nothing here keeps state. */
module AccessControl {

  datatype Claim =
    | IsDev | IsBroadcaster | IsMod | IsHelper | InFanclub
    | HasToken | HasTokens
    | IsLightBlue | IsDarkBlue | IsLightPurple | IsDarkPurple
    | HasTippedRecently | HasTippedAlotRecently | HasTippedTonsRecently

  datatype PermissionLevel = Dev | Mod | Superuser | User

  /** The attributes of a user or message object that the claims are read from. */
  datatype Origin = Origin(
    user: string,
    isMod: bool,
    inFanclub: bool,
    hasTokens: bool,
    tippedRecently: bool,
    tippedAlotRecently: bool,
    tippedTonsRecently: bool)

  /** The evaluator's construction-time configuration: whether moderators count for
      the elevated tiers, the developer's user name and the helper names. */
  datatype Evaluator = Evaluator(modsAllowed: bool, dev: string, helpers: seq<string>)

  /** Reference definition: which attribute makes each claim hold. The room owner's
      name (`cb.room_slug`) is passed in explicitly. */
  predicate Grants(ev: Evaluator, o: Origin, roomSlug: string, c: Claim) {
    match c
    case IsDev => o.user == ev.dev
    case IsBroadcaster => o.user == roomSlug
    case IsHelper => o.user in ev.helpers
    case IsMod => o.isMod
    case InFanclub => o.inFanclub
    case IsLightBlue | HasTokens | HasToken => o.hasTokens
    case IsDarkBlue | HasTippedRecently => o.tippedRecently
    case IsLightPurple | HasTippedAlotRecently => o.tippedAlotRecently
    case IsDarkPurple | HasTippedTonsRecently => o.tippedTonsRecently
  }

  /** Claims that come from who the user is rather than from tokens. */
  predicate IsRoleClaim(c: Claim) {
    c.IsDev? || c.IsBroadcaster? || c.IsHelper? || c.IsMod? || c.InFanclub?
  }

  predicate Distinct<T(==)>(xs: seq<T>) {
    forall i, j :: 0 <= i < j < |xs| ==> xs[i] != xs[j]
  }

  /** The order in which `getClaims` pushes the claims. */
  const PushOrder: seq<Claim> := [
    IsDev, IsBroadcaster, IsHelper, IsMod, InFanclub,
    IsLightBlue, HasTokens, HasToken, IsDarkBlue, HasTippedRecently,
    IsLightPurple, HasTippedAlotRecently, IsDarkPurple, HasTippedTonsRecently]

  /** Position of each claim in the push order. */
  function Rank(c: Claim): nat {
    match c
    case IsDev => 0
    case IsBroadcaster => 1
    case IsHelper => 2
    case IsMod => 3
    case InFanclub => 4
    case IsLightBlue => 5
    case HasTokens => 6
    case HasToken => 7
    case IsDarkBlue => 8
    case HasTippedRecently => 9
    case IsLightPurple => 10
    case HasTippedAlotRecently => 11
    case IsDarkPurple => 12
    case HasTippedTonsRecently => 13
  }

  /** The push order lists every claim, each once. */
  lemma PushOrderComplete()
    ensures forall c :: c in PushOrder
    ensures Distinct(PushOrder)
  {
    forall c ensures c in PushOrder {
      assert Rank(c) < |PushOrder| && PushOrder[Rank(c)] == c;
    }
    forall i, j | 0 <= i < j < |PushOrder| ensures PushOrder[i] != PushOrder[j] {
      assert Rank(PushOrder[i]) == i && Rank(PushOrder[j]) == j;
    }
  }

  /** The pushes of `getClaims` for the claims in `order`: each one whose attribute
      holds, in order. */
  function Pushes(ev: Evaluator, o: Origin, roomSlug: string, order: seq<Claim>): (claims: seq<Claim>)
    ensures forall c :: c in claims <==> c in order && Grants(ev, o, roomSlug, c)
    ensures Distinct(order) ==> Distinct(claims)
  {
    if order == [] then []
    else (if Grants(ev, o, roomSlug, order[0]) then [order[0]] else []) + Pushes(ev, o, roomSlug, order[1..])
  }

  /** The claims array, built by successive pushes: every claim whose attribute
      holds, each exactly once. */
  function GetClaims(ev: Evaluator, o: Origin, roomSlug: string): (claims: seq<Claim>)
    ensures forall c :: c in claims <==> Grants(ev, o, roomSlug, c)
    ensures Distinct(claims)
  {
    PushOrderComplete();
    Pushes(ev, o, roomSlug, PushOrder)
  }

  function HasClaim(ev: Evaluator, o: Origin, roomSlug: string, c: Claim): (b: bool)
    ensures b <==> Grants(ev, o, roomSlug, c)
  {
    c in GetClaims(ev, o, roomSlug)
  }

  /** `hasAnyClaim`: some claim of the origin is among `wanted`. */
  function HasAnyClaim(ev: Evaluator, o: Origin, roomSlug: string, wanted: seq<Claim>): (b: bool)
    ensures b <==> exists c :: c in wanted && Grants(ev, o, roomSlug, c)
  {
    var claims := GetClaims(ev, o, roomSlug);
    exists c | c in claims :: c in wanted
  }

  function HasPermission(ev: Evaluator, o: Origin, roomSlug: string, level: PermissionLevel): (b: bool)
    ensures o.user == ev.dev ==> b
    ensures o.user != ev.dev ==>
      (b <==> match level
              case Dev => false
              case Mod => o.user == roomSlug || (ev.modsAllowed && o.isMod)
              case Superuser =>
                o.user == roomSlug || (ev.modsAllowed && (o.isMod || o.user in ev.helpers))
              case User =>
                o.user == roomSlug || o.isMod || o.user in ev.helpers || o.inFanclub || o.hasTokens)
  {
    if HasClaim(ev, o, roomSlug, IsDev) then true
    else
      match level
      case Mod =>
        var wanted := if ev.modsAllowed then [IsBroadcaster, IsMod] else [IsBroadcaster];
        assert IsBroadcaster in wanted && (ev.modsAllowed ==> IsMod in wanted);
        HasAnyClaim(ev, o, roomSlug, wanted)
      case Superuser =>
        var wanted := if ev.modsAllowed then [IsBroadcaster, IsMod, IsHelper] else [IsBroadcaster];
        assert IsBroadcaster in wanted && (ev.modsAllowed ==> IsMod in wanted && IsHelper in wanted);
        HasAnyClaim(ev, o, roomSlug, wanted)
      case User =>
        var wanted := [IsBroadcaster, IsMod, IsHelper, InFanclub, HasToken];
        assert IsBroadcaster in wanted && IsMod in wanted && IsHelper in wanted;
        assert InFanclub in wanted && HasToken in wanted;
        HasAnyClaim(ev, o, roomSlug, wanted)
      case Dev => false
  }

  /** The developer passes every tier, whichever way the moderator toggle is set. */
  lemma DevOverride(ev: Evaluator, o: Origin, roomSlug: string)
    requires o.user == ev.dev
    ensures forall m: bool, level: PermissionLevel ::
      HasPermission(ev.(modsAllowed := m), o, roomSlug, level)
  {
  }

  /** For a fixed toggle and origin, MOD implies SUPERUSER and SUPERUSER implies USER. */
  lemma PermissionMonotone(ev: Evaluator, o: Origin, roomSlug: string)
    ensures HasPermission(ev, o, roomSlug, Mod) ==> HasPermission(ev, o, roomSlug, Superuser)
    ensures HasPermission(ev, o, roomSlug, Superuser) ==> HasPermission(ev, o, roomSlug, User)
  {
  }

  /** Without the developer's name, the DEV tier is refused whatever else holds. */
  lemma DevTierOnlyForDev(ev: Evaluator, o: Origin, roomSlug: string)
    requires o.user != ev.dev
    ensures !HasPermission(ev, o, roomSlug, Dev)
  {
  }

  /** Tip tiers are not hierarchical: a top-tier tipper with no other attribute gets
      exactly the two top-tier claims, so neither IS_LIGHTBLUE nor HAS_TOKEN, and does
      not reach the USER tier. */
  lemma TopTipperAloneIsNotUser(ev: Evaluator, o: Origin, roomSlug: string)
    requires o.tippedTonsRecently
    requires !o.isMod && !o.inFanclub && !o.hasTokens && !o.tippedRecently && !o.tippedAlotRecently
    requires o.user != ev.dev && o.user != roomSlug && o.user !in ev.helpers
    ensures forall c :: c in GetClaims(ev, o, roomSlug) <==> c == IsDarkPurple || c == HasTippedTonsRecently
    ensures !HasClaim(ev, o, roomSlug, IsLightBlue) && !HasClaim(ev, o, roomSlug, HasToken)
    ensures !HasPermission(ev, o, roomSlug, User)
  {
  }
}
