/** The government-role guard. Token verification is done upstream by
    the identity provider; what reaches the guard is `req.auth`, the
    verified claims, or nothing at all. */
module Auth {
  import opened Base

  datatype Metadata = Metadata(role: Option<string>)
  datatype SessionClaims = SessionClaims(publicMetadata: Option<Metadata>)

  /** `req.auth` as the identity middleware leaves it. */
  datatype AuthInfo = AuthInfo(userId: Option<string>, sessionClaims: Option<SessionClaims>)

  const CITIZEN := "citizen"
  const GOVERNMENT := "government"
  const ADMIN := "admin"

  const UNAUTHENTICATED := "Unauthenticated"
  const FORBIDDEN := "Forbidden: This action requires government authorization"
  const GUARD_ERROR := "Internal server error during authorization"

  /** The role claim, when the claims carry a truthy one. */
  function RoleClaim(a: AuthInfo): Option<string> {
    if a.sessionClaims.Some? && a.sessionClaims.value.publicMetadata.Some?
    then a.sessionClaims.value.publicMetadata.value.role
    else None
  }

  /** `(sessionClaims?.publicMetadata || {}).role || 'citizen'`. */
  function ResolveRole(a: AuthInfo): (r: string)
    ensures r != ""
    ensures Truthy(RoleClaim(a)) ==> r == RoleClaim(a).value
    ensures !Truthy(RoleClaim(a)) ==> r == CITIZEN
  {
    var claim := RoleClaim(a);
    if Truthy(claim) then claim.value else CITIZEN
  }

  predicate IsGovRole(role: string) {
    role == GOVERNMENT || role == ADMIN
  }

  /** The guard's verdict: stop with 401, 403 or 500, or call `next` with
      `req.userRole` set. */
  datatype Decision =
    | Unauthenticated
    | Forbidden(userRole: string)
    | Granted(userRole: string)
    | GuardFailed

  /** The HTTP status of a verdict; a grant lets the request through. */
  function DecisionCode(d: Decision): (c: nat)
    ensures d.Granted? <==> c == 200
    ensures d.Unauthenticated? <==> c == 401
    ensures d.Forbidden? <==> c == 403
    ensures d.GuardFailed? <==> c == 500
  {
    match d
    case Unauthenticated => 401
    case Forbidden(_) => 403
    case Granted(_) => 200
    case GuardFailed => 500
  }

  /** `requireGovRole`. A request with no `req.auth` at all makes the
      destructuring throw, which the handler turns into a 500. */
  function RequireGovRole(auth: Option<AuthInfo>): (d: Decision)
    ensures d.GuardFailed? <==> auth.None?
    ensures d.Unauthenticated? <==> auth.Some? && !Truthy(auth.value.userId)
    ensures d.Granted? <==> auth.Some? && Truthy(auth.value.userId) && IsGovRole(ResolveRole(auth.value))
    ensures d.Granted? || d.Forbidden? ==> d.userRole == ResolveRole(auth.value)
    ensures d.Forbidden? ==> !IsGovRole(d.userRole)
  {
    match auth
    case None => GuardFailed
    case Some(a) =>
      if !Truthy(a.userId) then Unauthenticated
      else
        var role := ResolveRole(a);
        if !IsGovRole(role) then Forbidden(role) else Granted(role)
  }

  /** Default deny: claims without a role resolve to "citizen", and a
      signed-in citizen gets 403 carrying that role. */
  lemma NoRoleIsDenied(a: AuthInfo)
    requires !Truthy(RoleClaim(a))
    ensures ResolveRole(a) == CITIZEN
    ensures RequireGovRole(Some(a)) != Granted(ResolveRole(a))
    ensures Truthy(a.userId) ==> RequireGovRole(Some(a)) == Forbidden(CITIZEN)
  {
  }
}
