/** The HTTP surface of the backend: which chain of middleware and handler
    a request reaches, and how far along that chain it gets. A request
    path is given as its non-empty segments; mount and route literals
    match case-insensitively (ASCII only), parameters keep their case. */
module Routes {
  import opened Base
  import Auth

  datatype HttpMethod = GET | HEAD | POST | PUT | PATCH | DELETE | OPTIONS

  /** The controller a chain ends in, or one of the app's own responders. */
  datatype Handler =
    | GetIssues
    | GetIssueById(id: string)
    | CreateIssue
    | UpdateIssueStatus(id: string)
    | GetAllIssuesForAdmin
    | GetAdminStats
    | UpdateIssueStatusAdmin(id: string)
    | StaticImage(file: seq<string>)
    | Banner
    | Health

  /** One layer of a chain. `NotFound` is the framework's final 404 and
      `Preflight` the CORS layer's answer to an OPTIONS request. */
  datatype Step = RequireAuth | RequireGovRole | Upload | Handle(h: Handler) | NotFound | Preflight

  /** The handlers that read every issue or change a status. */
  predicate Privileged(h: Handler) {
    h.UpdateIssueStatus? || h.GetAllIssuesForAdmin? || h.GetAdminStats? || h.UpdateIssueStatusAdmin?
  }

  /** A GET route also answers HEAD. */
  predicate IsRead(m: HttpMethod) {
    m == GET || m == HEAD
  }

  /** A path segment matches a route literal: its ASCII lower-case form,
      character by character, is the literal. */
  predicate Seg(s: string, literal: string) {
    |s| == |literal| && forall i :: 0 <= i < |s| ==> LowerChar(s[i]) == literal[i]
  }

  /** The issues router, for the segments after `/api/issues`. */
  function IssuesRoute(m: HttpMethod, rest: seq<string>): (r: Option<seq<Step>>)
    ensures r.Some? && Handle(CreateIssue) in r.value ==> r.value == [RequireAuth, Upload, Handle(CreateIssue)]
    ensures r.Some? && RequireGovRole in r.value ==> |r.value| >= 2 && r.value[..2] == [RequireAuth, RequireGovRole]
    ensures r.Some? && |r.value| == 1 ==> r.value[0].Handle? && !Privileged(r.value[0].h)
    ensures r.Some? && |r.value| != 1 ==>
      && |r.value| == 3
      && (r.value[..2] == [RequireAuth, RequireGovRole] || r.value == [RequireAuth, Upload, Handle(CreateIssue)])
  {
    if IsRead(m) && rest == [] then Some([Handle(GetIssues)])
    else if IsRead(m) && |rest| == 1 then Some([Handle(GetIssueById(rest[0]))])
    else if m == POST && rest == [] then Some([RequireAuth, Upload, Handle(CreateIssue)])
    else if m == PATCH && |rest| == 2 && Seg(rest[1], "status")
    then Some([RequireAuth, RequireGovRole, Handle(UpdateIssueStatus(rest[0]))])
    else None
  }

  /** The admin router: both guards run first for every request that
      enters it, matched or not. */
  function AdminRoute(m: HttpMethod, rest: seq<string>): (r: seq<Step>)
    ensures |r| == 3 && r[..2] == [RequireAuth, RequireGovRole]
  {
    var last :=
      if IsRead(m) && |rest| == 1 && Seg(rest[0], "issues") then Handle(GetAllIssuesForAdmin)
      else if IsRead(m) && |rest| == 1 && Seg(rest[0], "stats") then Handle(GetAdminStats)
      else if m == PATCH && |rest| == 3 && Seg(rest[0], "issues") && Seg(rest[2], "status")
      then Handle(UpdateIssueStatusAdmin(rest[1]))
      else NotFound;
    [RequireAuth, RequireGovRole, last]
  }

  /** The app's layers in order: CORS preflight, static images, the two
      routers and the two status pages. */
  function Dispatch(m: HttpMethod, path: seq<string>): (chain: seq<Step>)
    ensures chain != []
  {
    if m == OPTIONS then [Preflight]
    else if IsRead(m) && |path| >= 2 && Seg(path[0], "images") then [Handle(StaticImage(path[1..]))]
    else if |path| >= 2 && Seg(path[0], "api") && Seg(path[1], "issues") then
      IssuesRoute(m, path[2..]).GetOr([NotFound])
    else if |path| >= 2 && Seg(path[0], "api") && Seg(path[1], "admin") then AdminRoute(m, path[2..])
    else if IsRead(m) && path == [] then [Handle(Banner)]
    else if IsRead(m) && |path| == 2 && Seg(path[0], "api") && Seg(path[1], "health") then [Handle(Health)]
    else [NotFound]
  }

  /** Signed in as far as the identity middleware is concerned. */
  predicate SignedIn(auth: Option<Auth.AuthInfo>) {
    auth.Some? && Truthy(auth.value.userId)
  }

  /** How a request ends: stopped by a guard, at a handler, at the 404, or
      answered by the preflight. */
  datatype Outcome =
    | Halted(code: nat, error: string, userRole: Option<string>)
    | Reached(h: Handler)
    | Unrouted
    | Preflighted

  /** Runs the chain's middleware until one stops the request or a
      responder is met. */
  function Pass(chain: seq<Step>, auth: Option<Auth.AuthInfo>): (o: Outcome)
    ensures o.Reached? ==> Handle(o.h) in chain
    decreases |chain|
  {
    if chain == [] then Unrouted
    else
      match chain[0]
      case RequireAuth =>
        if SignedIn(auth) then Pass(chain[1..], auth) else Halted(401, Auth.UNAUTHENTICATED, None)
      case RequireGovRole =>
        var d := Auth.RequireGovRole(auth);
        (match d
         case Granted(_) => Pass(chain[1..], auth)
         case Forbidden(role) => Halted(Auth.DecisionCode(d), Auth.FORBIDDEN, Some(role))
         case Unauthenticated => Halted(Auth.DecisionCode(d), Auth.UNAUTHENTICATED, None)
         case GuardFailed => Halted(Auth.DecisionCode(d), Auth.GUARD_ERROR, None))
      case Upload => Pass(chain[1..], auth)
      case Handle(h) => Reached(h)
      case NotFound => Unrouted
      case Preflight => Preflighted
  }

  /** Every chain that ends in a privileged handler starts with both
      guards, the create chain starts with sign-in, and no chain runs the
      role guard before sign-in. */
  lemma ChainShape(m: HttpMethod, path: seq<string>)
    ensures var c := Dispatch(m, path);
      && (forall h :: Handle(h) in c && Privileged(h) ==> |c| >= 2 && c[..2] == [RequireAuth, RequireGovRole])
      && (Handle(CreateIssue) in c ==> c[0] == RequireAuth)
      && (RequireGovRole in c ==> c[0] == RequireAuth)
  {
    var c := Dispatch(m, path);
    if m == OPTIONS {
      assert c == [Preflight];
    } else if IsRead(m) && |path| >= 2 && Seg(path[0], "images") {
      assert c == [Handle(StaticImage(path[1..]))];
    } else if |path| >= 2 && Seg(path[0], "api") && Seg(path[1], "issues") {
      var r := IssuesRoute(m, path[2..]);
      assert c == r.GetOr([NotFound]);
      if r.Some? && |r.value| == 1 {
        assert c == [c[0]];
      }
    } else if |path| >= 2 && Seg(path[0], "api") && Seg(path[1], "admin") {
      assert c == AdminRoute(m, path[2..]);
    } else {
      assert c == [Handle(Banner)] || c == [Handle(Health)] || c == [NotFound];
    }
  }

  /** Reaching anything after both guards means the role guard granted. */
  lemma GuardedChainNeedsGrant(c: seq<Step>, auth: Option<Auth.AuthInfo>)
    requires |c| >= 2 && c[..2] == [RequireAuth, RequireGovRole]
    ensures Pass(c, auth).Reached? ==> Auth.RequireGovRole(auth).Granted?
  {
    assert c[0] == RequireAuth && c[1] == RequireGovRole;
    if SignedIn(auth) {
      var tail := c[1..];
      assert tail[0] == RequireGovRole;
      assert Pass(c, auth) == Pass(tail, auth);
      if !Auth.RequireGovRole(auth).Granted? {
        assert !Pass(tail, auth).Reached?;
      }
    }
  }

  /** No privileged handler, and in particular no status write, runs
      unless the government-role guard granted the request. */
  lemma PrivilegedNeedsGovRole(m: HttpMethod, path: seq<string>, auth: Option<Auth.AuthInfo>)
    ensures var o := Pass(Dispatch(m, path), auth);
      o.Reached? && Privileged(o.h) ==> Auth.RequireGovRole(auth).Granted?
  {
    ChainShape(m, path);
    var c := Dispatch(m, path);
    if |c| >= 2 && c[..2] == [RequireAuth, RequireGovRole] {
      GuardedChainNeedsGrant(c, auth);
    }
  }

  /** Creating an issue needs a signed-in caller. */
  lemma CreateNeedsSignIn(m: HttpMethod, path: seq<string>, auth: Option<Auth.AuthInfo>)
    ensures Pass(Dispatch(m, path), auth) == Reached(CreateIssue) ==> SignedIn(auth)
  {
    ChainShape(m, path);
  }

  /** A 500 from the role guard needs a request with no auth at all, which
      the sign-in step always stops first. */
  lemma {:induction false} GuardFailureNeedsNoAuth(c: seq<Step>, auth: Option<Auth.AuthInfo>)
    ensures Pass(c, auth).Halted? && Pass(c, auth).code == 500 ==> auth.None? && RequireGovRole in c
    decreases |c|
  {
    if c != [] && (c[0] == RequireAuth || c[0] == Upload || (c[0] == RequireGovRole && Auth.RequireGovRole(auth).Granted?)) {
      GuardFailureNeedsNoAuth(c[1..], auth);
      if RequireGovRole in c[1..] {
        var i :| 0 <= i < |c[1..]| && c[1..][i] == RequireGovRole;
        assert c[i + 1] == RequireGovRole;
      }
    }
  }

  /** Through the routes the guard's 500 branch is unreachable. */
  lemma NoGuardFailureOnRoutes(m: HttpMethod, path: seq<string>, auth: Option<Auth.AuthInfo>)
    ensures var o := Pass(Dispatch(m, path), auth);
      !(o.Halted? && o.code == 500)
  {
    var c := Dispatch(m, path);
    ChainShape(m, path);
    GuardFailureNeedsNoAuth(c, auth);
  }

  /** Every request under `/api/issues` other than a preflight enters the
      issues router, and falls through to the 404 when no route matches. */
  lemma DispatchIssues(m: HttpMethod, rest: seq<string>)
    requires m != OPTIONS
    ensures Dispatch(m, ["api", "issues"] + rest) == IssuesRoute(m, rest).GetOr([NotFound])
  {
    var path := ["api", "issues"] + rest;
    assert path[0] == "api" && path[1] == "issues" && path[2..] == rest;
    LiteralSegment("api");
    LiteralSegment("issues");
  }

  /** Both reads of the issues router are public. */
  lemma PublicReads(m: HttpMethod, id: string, auth: Option<Auth.AuthInfo>)
    requires IsRead(m)
    ensures Pass(Dispatch(m, ["api", "issues"]), auth) == Reached(GetIssues)
    ensures Pass(Dispatch(m, ["api", "issues", id]), auth) == Reached(GetIssueById(id))
  {
    DispatchIssues(m, []);
    DispatchIssues(m, [id]);
    assert ["api", "issues"] + [] == ["api", "issues"];
    assert ["api", "issues"] + [id] == ["api", "issues", id];
  }

  /** POST /api/issues: sign-in, then the upload, then the handler. */
  lemma CreateRoute(auth: Option<Auth.AuthInfo>)
    ensures Dispatch(POST, ["api", "issues"]) == [RequireAuth, Upload, Handle(CreateIssue)]
    ensures Pass(Dispatch(POST, ["api", "issues"]), auth) ==
      if SignedIn(auth) then Reached(CreateIssue) else Halted(401, Auth.UNAUTHENTICATED, None)
  {
    DispatchIssues(POST, []);
    assert ["api", "issues"] + [] == ["api", "issues"];
    var c := [RequireAuth, Upload, Handle(CreateIssue)];
    assert c[1..] == [Upload, Handle(CreateIssue)];
    assert c[1..][1..] == [Handle(CreateIssue)];
  }

  /** A literal in lower case matches itself. */
  lemma LiteralSegment(s: string)
    requires NoUpperAscii(s)
    ensures Seg(s, s)
  {
    assert forall i :: 0 <= i < |s| ==> LowerChar(s[i]) == s[i];
  }

  /** Every request under `/api/admin` other than a preflight enters the
      admin router. */
  lemma DispatchAdmin(m: HttpMethod, rest: seq<string>)
    requires m != OPTIONS
    ensures Dispatch(m, ["api", "admin"] + rest) == AdminRoute(m, rest)
  {
    var path := ["api", "admin"] + rest;
    assert path[0] == "api" && path[1] == "admin" && path[2..] == rest;
    LiteralSegment("api");
    LiteralSegment("admin");
  }

  /** The admin router's status route. */
  lemma AdminStatusRoute(id: string)
    ensures AdminRoute(PATCH, ["issues", id, "status"]) ==
      [RequireAuth, RequireGovRole, Handle(UpdateIssueStatusAdmin(id))]
  {
    LiteralSegment("issues");
    LiteralSegment("status");
  }

  /** GET (or HEAD) /api/admin/issues lists every issue for a granted
      caller; every other caller is stopped by a guard. */
  lemma AdminListRoute(m: HttpMethod, auth: Option<Auth.AuthInfo>)
    requires IsRead(m)
    ensures Auth.RequireGovRole(auth).Granted? ==>
      Pass(Dispatch(m, ["api", "admin", "issues"]), auth) == Reached(GetAllIssuesForAdmin)
    ensures !Auth.RequireGovRole(auth).Granted? ==> Pass(Dispatch(m, ["api", "admin", "issues"]), auth).Halted?
  {
    assert ["api", "admin"] + ["issues"] == ["api", "admin", "issues"];
    DispatchAdmin(m, ["issues"]);
    LiteralSegment("issues");
    PassGuards(Handle(GetAllIssuesForAdmin), auth);
  }

  /** GET (or HEAD) /api/admin/stats reaches the counts for a granted
      caller; every other caller is stopped by a guard. */
  lemma AdminStatsRoute(m: HttpMethod, auth: Option<Auth.AuthInfo>)
    requires IsRead(m)
    ensures Auth.RequireGovRole(auth).Granted? ==>
      Pass(Dispatch(m, ["api", "admin", "stats"]), auth) == Reached(GetAdminStats)
    ensures !Auth.RequireGovRole(auth).Granted? ==> Pass(Dispatch(m, ["api", "admin", "stats"]), auth).Halted?
  {
    assert ["api", "admin"] + ["stats"] == ["api", "admin", "stats"];
    DispatchAdmin(m, ["stats"]);
    LiteralSegment("stats");
    assert !Seg("stats", "issues");
    PassGuards(Handle(GetAdminStats), auth);
  }

  /** PATCH /api/issues/:id/status reaches the status write for that issue
      for a granted caller; every other caller is stopped by a guard. */
  lemma IssueStatusRoute(id: string, auth: Option<Auth.AuthInfo>)
    ensures Auth.RequireGovRole(auth).Granted? ==>
      Pass(Dispatch(PATCH, ["api", "issues", id, "status"]), auth) == Reached(UpdateIssueStatus(id))
    ensures !Auth.RequireGovRole(auth).Granted? ==> Pass(Dispatch(PATCH, ["api", "issues", id, "status"]), auth).Halted?
  {
    assert ["api", "issues"] + [id, "status"] == ["api", "issues", id, "status"];
    DispatchIssues(PATCH, [id, "status"]);
    LiteralSegment("status");
    PassGuards(Handle(UpdateIssueStatus(id)), auth);
  }

  /** A chain of both guards and one responder. */
  lemma PassGuards(last: Step, auth: Option<Auth.AuthInfo>)
    ensures Pass([RequireAuth, RequireGovRole, last], auth) ==
      if !SignedIn(auth) then Halted(401, Auth.UNAUTHENTICATED, None)
      else if !Auth.RequireGovRole(auth).Granted?
      then Halted(403, Auth.FORBIDDEN, Some(Auth.ResolveRole(auth.value)))
      else Pass([last], auth)
  {
    var c := [RequireAuth, RequireGovRole, last];
    assert c[1..] == [RequireGovRole, last];
    assert c[1..][1..] == [last];
  }

  /** A signed-in caller without a government role gets 403 carrying the
      role for every admin path, routed or not. */
  lemma AdminForbidsCitizens(m: HttpMethod, rest: seq<string>, auth: Option<Auth.AuthInfo>)
    requires m != OPTIONS && SignedIn(auth)
    requires !Auth.IsGovRole(Auth.ResolveRole(auth.value))
    ensures Pass(Dispatch(m, ["api", "admin"] + rest), auth) ==
      Halted(403, Auth.FORBIDDEN, Some(Auth.ResolveRole(auth.value)))
  {
    DispatchAdmin(m, rest);
    PassGuards(AdminRoute(m, rest)[2], auth);
    assert AdminRoute(m, rest) == [RequireAuth, RequireGovRole, AdminRoute(m, rest)[2]];
  }
}
