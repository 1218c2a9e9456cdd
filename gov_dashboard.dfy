/** The government dashboard page: the query strings it sends for the
    counts and for the list, and how it updates its own copy of the list
    after a status change. */
module GovernmentDashboard {
  import opened Base
  import opened IssueModel
  import opened StoreQuery
  import opened AdminController
  import IssuesController
  import Auth
  import Routes

  /** The select value that means "no filter". */
  const ALL := "all"
  const NEWEST_FIRST := "desc"

  /** A `URLSearchParams`: name/value pairs in the order appended. */
  type Params = seq<(string, string)>

  /** Entry `i` is the first one under `name`. */
  predicate FirstWith(p: Params, name: string, i: int) {
    0 <= i < |p| && p[i].0 == name && forall j :: 0 <= j < i ==> p[j].0 != name
  }

  /** `params.get(name)`: the first value under that name. */
  function Get(p: Params, name: string): (r: Option<string>)
    ensures r.None? <==> forall i :: 0 <= i < |p| ==> p[i].0 != name
    ensures forall i {:trigger FirstWith(p, name, i)} :: FirstWith(p, name, i) ==> r == Some(p[i].1)
  {
    if p == [] then None
    else if p[0].0 == name then Some(p[0].1)
    else
      var r := Get(p[1..], name);
      assert forall i :: 1 <= i < |p| ==> p[i] == p[1..][i - 1];
      assert forall i {:trigger FirstWith(p, name, i)} :: 1 <= i < |p| && FirstWith(p, name, i) ==>
        FirstWith(p[1..], name, i - 1);
      r
  }

  /** Appending keeps the first value of every name already present. */
  lemma {:induction false} GetAppend(p: Params, e: (string, string), name: string)
    ensures Get(p + [e], name) ==
      if Get(p, name).Some? then Get(p, name) else if e.0 == name then Some(e.1) else None
  {
    if p != [] {
      assert (p + [e])[1..] == p[1..] + [e];
      GetAppend(p[1..], e, name);
    }
  }

  /** The query object the server reads from a parameter list whose names
      are all different. */
  function ParseQuery(p: Params): Query {
    Query(Get(p, "status"), Get(p, "severity"), Get(p, "category"), Get(p, "sortBy"), Get(p, "order"))
  }

  function FilterValue(selected: string): Option<string> {
    if selected != ALL then Some(selected) else None
  }

  /** The query the list request means: the selected filters, newest or
      oldest first by creation time. */
  function DashboardQuery(statusFilter: string, severityFilter: string, sortOrder: string): Query {
    Query(FilterValue(statusFilter), FilterValue(severityFilter), None, Some("createdAt"), Some(sortOrder))
  }

  predicate DistinctNames(p: Params) {
    forall i, j :: 0 <= i < j < |p| ==> p[i].0 != p[j].0
  }

  /** Appending a parameter under a name not yet present. */
  lemma AppendNew(p: Params, e: (string, string))
    requires DistinctNames(p) && Get(p, e.0).None?
    ensures DistinctNames(p + [e])
    ensures forall name :: name != e.0 ==> Get(p + [e], name) == Get(p, name)
    ensures Get(p + [e], e.0) == Some(e.1)
  {
    forall name ensures Get(p + [e], name) ==
      if Get(p, name).Some? then Get(p, name) else if e.0 == name then Some(e.1) else None
    {
      GetAppend(p, e, name);
    }
  }

  /** The query field a parameter name sets, if any. */
  function SetParam(q: Query, e: (string, string)): Query {
    if e.0 == "status" then q.(status := Some(e.1))
    else if e.0 == "severity" then q.(severity := Some(e.1))
    else if e.0 == "category" then q.(category := Some(e.1))
    else if e.0 == "sortBy" then q.(sortBy := Some(e.1))
    else if e.0 == "order" then q.(order := Some(e.1))
    else q
  }

  /** Appending a parameter under a new name sets that field of the
      parsed query and no other. */
  lemma ParseAppend(p: Params, e: (string, string))
    requires DistinctNames(p) && Get(p, e.0).None?
    ensures DistinctNames(p + [e])
    ensures ParseQuery(p + [e]) == SetParam(ParseQuery(p), e)
  {
    AppendNew(p, e);
    GetAppend(p, e, "status");
    GetAppend(p, e, "severity");
    GetAppend(p, e, "category");
    GetAppend(p, e, "sortBy");
    GetAppend(p, e, "order");
  }

  /** The counts request: status and severity, each only when filtered. */
  method StatsParams(statusFilter: string, severityFilter: string) returns (p: Params)
    ensures DistinctNames(p)
    ensures ParseQuery(p) == DashboardQuery(statusFilter, severityFilter, NEWEST_FIRST).(sortBy := None, order := None)
  {
    p := [];
    if statusFilter != ALL {
      ParseAppend(p, ("status", statusFilter));
      p := p + [("status", statusFilter)];
    }
    if severityFilter != ALL {
      ParseAppend(p, ("severity", severityFilter));
      p := p + [("severity", severityFilter)];
    }
  }

  /** The list request: the same filters, then `sortBy=createdAt` and the
      selected order. */
  method IssueParams(statusFilter: string, severityFilter: string, sortOrder: string) returns (p: Params)
    ensures DistinctNames(p)
    ensures ParseQuery(p) == DashboardQuery(statusFilter, severityFilter, sortOrder)
  {
    p := StatsParams(statusFilter, severityFilter);
    ParseAppend(p, ("sortBy", "createdAt"));
    p := p + [("sortBy", "createdAt")];
    ParseAppend(p, ("order", sortOrder));
    p := p + [("order", sortOrder)];
  }

  /** What the list request selects on the server: issues with the chosen
      status and severity (a filter of "all", or an empty one, lets every
      value through), ordered by creation time; the server accepts the
      request iff the order is "asc" or "desc" in any case. */
  lemma DashboardQueryMeaning(statusFilter: string, severityFilter: string, sortOrder: string, i: Issue)
    ensures var q := DashboardQuery(statusFilter, severityFilter, sortOrder);
      && (MatchesFilters(i, q) <==>
            (statusFilter == ALL || statusFilter == "" || i.status == statusFilter) &&
            (severityFilter == ALL || severityFilter == "" || i.severity == severityFilter))
      && SortField(q) == "createdAt"
      && (IsValidOrdering(q) <==> ToLower(sortOrder) == "asc" || ToLower(sortOrder) == "desc")
      && (sortOrder == NEWEST_FIRST ==> Descending(q))
  {
    DescendingByDefault(DashboardQuery(statusFilter, severityFilter, sortOrder).(order := None));
  }

  /** The path of the status update, under the API base `/api`. */
  function UpdatePath(issueId: string): seq<string> {
    ["api", "admin", "issues", issueId, "status"]
  }

  /** The status update the page sends reaches the admin handler for that
      issue exactly when the caller is a signed-in government user. */
  lemma UpdateReachesAdminHandler(issueId: string, auth: Option<Auth.AuthInfo>)
    requires Routes.SignedIn(auth)
    ensures Routes.Pass(Routes.Dispatch(Routes.PATCH, UpdatePath(issueId)), auth) ==
      if Auth.RequireGovRole(auth).Granted? then Routes.Reached(Routes.UpdateIssueStatusAdmin(issueId))
      else Routes.Halted(403, Auth.FORBIDDEN, Some(Auth.ResolveRole(auth.value)))
  {
    var rest := ["issues", issueId, "status"];
    assert UpdatePath(issueId) == ["api", "admin"] + rest;
    Routes.DispatchAdmin(Routes.PATCH, rest);
    Routes.AdminStatusRoute(issueId);
    var last := Routes.Handle(Routes.UpdateIssueStatusAdmin(issueId));
    Routes.PassGuards(last, auth);
    assert Routes.Pass([last], auth) == Routes.Reached(Routes.UpdateIssueStatusAdmin(issueId));
  }

  /** One entry of the local list after a successful update. */
  function Touch(d: Doc, id: string, status: string, now: nat): Doc {
    if d.id == id then Doc(d.id, d.data.(status := status, updatedAt := now)) else d
  }

  /** The local list after a successful update: the matching issue gets
      the new status and a fresh updatedAt, every other entry is kept. */
  function LocalStatusUpdate(issues: seq<Doc>, id: string, status: string, now: nat): (r: seq<Doc>)
    ensures |r| == |issues|
    ensures forall i :: 0 <= i < |issues| ==> r[i].id == issues[i].id
    ensures forall i :: 0 <= i < |issues| && issues[i].id != id ==> r[i] == issues[i]
    ensures forall i :: 0 <= i < |issues| && issues[i].id == id ==>
      r[i].data == issues[i].data.(status := status, updatedAt := now)
  {
    if issues == [] then []
    else [Touch(issues[0], id, status, now)] + LocalStatusUpdate(issues[1..], id, status, now)
  }

  /** The local update keeps every entry's creation time and id, so it
      keeps an order by creation time and the ids distinct. */
  lemma LocalUpdateKeepsOrder(r: seq<Doc>, id: string, status: string, now: nat, desc: bool)
    requires Ordered(r, "createdAt", desc) && DistinctIds(r)
    ensures var l := LocalStatusUpdate(r, id, status, now);
      Ordered(l, "createdAt", desc) && DistinctIds(l)
  {
    var l := LocalStatusUpdate(r, id, status, now);
    forall i | 0 <= i < |l| ensures Rank(l[i], "createdAt") == Rank(r[i], "createdAt") {
      assert l[i].data.createdAt == r[i].data.createdAt;
    }
    forall i, j | 0 <= i < j < |l| ensures Precedes(l[i], l[j], "createdAt", desc) {
      assert Precedes(r[i], r[j], "createdAt", desc);
    }
  }

  /** After a successful admin update the local copy of a listing ordered
      by creation time keeps its order and lists each issue once. Every
      other issue agrees with the store; the updated one agrees in every
      field but `updatedAt`, which the browser takes from its own clock
      while the server takes it from its clock, and `updatedBy`, which only
      the store records. */
  lemma LocalUpdateTracksStore(r: seq<Doc>, docs: map<string, Issue>, q: Query, desc: bool,
                               id: string, status: string, clientNow: nat, serverNow: nat,
                               caller: string)
    requires IsListing(r, docs, q, "createdAt", desc)
    requires id in docs
    ensures var after := IssuesController.AfterStatusUpdate(docs, id, status, serverNow, Some(caller));
      var l := LocalStatusUpdate(r, id, status, clientNow);
      && Ordered(l, "createdAt", desc)
      && DistinctIds(l)
      && (forall i :: 0 <= i < |l| ==> l[i].id in after)
      && (forall i :: 0 <= i < |l| && l[i].id != id ==> l[i].data == after[l[i].id])
      && (forall i :: 0 <= i < |l| && l[i].id == id ==>
            && l[i].data.updatedAt == clientNow
            && after[id].updatedAt == serverNow
            && after[id].updatedBy == Some(caller)
            && l[i].data.(updatedAt := serverNow, updatedBy := Some(caller)) == after[id])
  {
    LocalUpdateKeepsOrder(r, id, status, clientNow, desc);
    var l := LocalStatusUpdate(r, id, status, clientNow);
    forall i | 0 <= i < |l| ensures r[i].id in docs && r[i].data == docs[r[i].id] {
      assert r[i] in r;
    }
  }

  /** The list the page keeps from a response: the array, or nothing when
      the response is not an array. */
  datatype Json = IssueArray(docs: seq<Doc>) | StatsObject(stats: Stats) | ErrorObject(error: string)

  function IssuesOrEmpty(j: Json): (r: seq<Doc>)
    ensures j.IssueArray? ==> r == j.docs
    ensures !j.IssueArray? ==> r == []
  {
    if j.IssueArray? then j.docs else []
  }

  /** How far a refresh got before it finished or threw. */
  datatype FetchResult =
    | BothArrived(statsData: Json, issuesData: Json)
    | StatsOnly(statsData: Json)
    | NothingArrived

  /** How a status-update request ended: the token request rejected
      before anything was sent, the server answered, or the request was
      sent and the fetch threw. */
  datatype UpdateResult = TokenFailed | Responded(ok: bool) | RequestFailed

  class Dashboard {
    var issues: seq<Doc>
    var stats: Option<Json>
    var loading: bool
    var updating: Option<string>
    var statusFilter: string
    var severityFilter: string
    var sortOrder: string

    constructor ()
      ensures issues == [] && stats.None? && loading && updating.None?
      ensures statusFilter == ALL && severityFilter == ALL && sortOrder == NEWEST_FIRST
    {
      issues := [];
      stats := None;
      loading := true;
      updating := None;
      statusFilter := ALL;
      severityFilter := ALL;
      sortOrder := NEWEST_FIRST;
    }

    /** The start of `fetchData`: loading is on, and the two requests
        carry the current filters. */
    method BeginFetch() returns (statsQuery: Params, issuesQuery: Params)
      modifies this`loading
      ensures loading
      ensures ParseQuery(statsQuery) == DashboardQuery(statusFilter, severityFilter, sortOrder).(sortBy := None, order := None)
      ensures ParseQuery(issuesQuery) == DashboardQuery(statusFilter, severityFilter, sortOrder)
    {
      loading := true;
      statsQuery := StatsParams(statusFilter, severityFilter);
      issuesQuery := IssueParams(statusFilter, severityFilter, sortOrder);
    }

    /** The end of `fetchData`: whatever arrived is stored and loading is
        off in every case. */
    method FinishFetch(result: FetchResult)
      modifies this`stats, this`issues, this`loading
      ensures !loading
      ensures stats == (if result.NothingArrived? then old(stats) else Some(result.statsData))
      ensures issues == (if result.BothArrived? then IssuesOrEmpty(result.issuesData) else old(issues))
    {
      if !result.NothingArrived? {
        stats := Some(result.statsData);
      }
      if result.BothArrived? {
        issues := IssuesOrEmpty(result.issuesData);
      }
      loading := false;
    }

    /** `handleStatusUpdate`: no request is sent when the token cannot be
        obtained, otherwise the PATCH goes to the issue's admin path; the
        list changes only on an ok response, the marker is cleared in every
        case, and a refresh follows an ok response. `now` is the browser's
        clock. */
    method HandleStatusUpdate(issueId: string, newStatus: string, result: UpdateResult, now: nat)
      returns (path: Option<seq<string>>, refresh: bool)
      modifies this`issues, this`updating
      ensures path.None? <==> result == TokenFailed
      ensures path.Some? ==> path.value == UpdatePath(issueId)
      ensures updating.None?
      ensures refresh <==> result == Responded(true)
      ensures issues == if refresh then LocalStatusUpdate(old(issues), issueId, newStatus, now) else old(issues)
    {
      updating := Some(issueId);
      if result == TokenFailed {
        path := None;
      } else {
        path := Some(UpdatePath(issueId));
      }
      refresh := result == Responded(true);
      if refresh {
        issues := LocalStatusUpdate(issues, issueId, newStatus, now);
      }
      updating := None;
    }
  }
}
