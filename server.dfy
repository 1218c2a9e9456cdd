/** One request end to end: route it, run its middleware, and hand it to
    the handler the chain ends in. */
module Server {
  import opened Base
  import opened IssueModel
  import opened Routes
  import Auth
  import MlService
  import IssueStore
  import AdminController

  datatype Request = Request(
    verb: HttpMethod,
    path: seq<string>,
    auth: Option<Auth.AuthInfo>,
    body: Body,
    query: Query,
    file: Option<UploadedFile>)

  /** What a reply carries. `Page` stands for a body outside this model:
      a static image, the banner, the health document, the 404 page or
      the empty preflight answer. */
  datatype Payload =
    | ErrorBody(error: string, userRole: Option<string>)
    | CreatedBody(created: IssueStore.Created)
    | IssueBody(doc: Doc)
    | IssuesBody(docs: seq<Doc>)
    | StatsBody(stats: AdminController.Stats)
    | StatusBody(reply: IssueStore.StatusReply)
    | Page

  datatype Response = Response(code: nat, payload: Payload)

  function FromReply<T>(r: Reply<T>, wrap: T -> Payload): Response {
    match r
    case Ok(code, body) => Response(code, wrap(body))
    case Fail(code, error) => Response(code, ErrorBody(error, None))
  }

  /** Serves one request. `images` is the set of files under the image
      directory; the other inputs are those of the create handler. */
  method Serve(store: IssueStore.Store, req: Request, images: set<seq<string>>,
               classifier: MlService.MlRequest -> MlService.MlOutcome,
               newId: string, advance1: nat, advance2: nat) returns (resp: Response)
    requires store.Valid() && newId !in store.docs
    modifies store
    ensures store.Valid() && store.configured == old(store.configured)
    ensures var o := Pass(Dispatch(req.verb, req.path), req.auth);
      o.Halted? ==> resp == Response(o.code, ErrorBody(o.error, o.userRole)) && store.docs == old(store.docs)
    ensures !Auth.RequireGovRole(req.auth).Granted? ==>
      forall k :: k in old(store.docs) ==> k in store.docs && store.docs[k] == old(store.docs)[k]
    ensures !SignedIn(req.auth) ==> store.docs == old(store.docs)
    ensures old(store.docs).Keys <= store.docs.Keys <= old(store.docs).Keys + {newId}
  {
    var o := Pass(Dispatch(req.verb, req.path), req.auth);
    PrivilegedNeedsGovRole(req.verb, req.path, req.auth);
    CreateNeedsSignIn(req.verb, req.path, req.auth);
    match o
    case Halted(code, error, role) =>
      resp := Response(code, ErrorBody(error, role));
    case Unrouted =>
      resp := Response(404, Page);
    case Preflighted =>
      resp := Response(204, Page);
    case Reached(h) =>
      match h
      case GetIssues =>
        var listed := store.GetIssues();
        resp := Response(200, IssuesBody(listed));
      case GetIssueById(id) =>
        resp := FromReply(store.GetIssueById(id), d => IssueBody(d));
      case CreateIssue =>
        var r, _ := store.CreateIssue(req.auth.value.userId.value, req.body, req.file,
                                      classifier, newId, advance1, advance2);
        resp := FromReply(r, c => CreatedBody(c));
      case UpdateIssueStatus(id) =>
        var r := store.UpdateIssueStatus(id, req.body.status, advance1);
        resp := FromReply(r, s => StatusBody(s));
      case GetAllIssuesForAdmin =>
        var r := store.GetAllIssuesForAdmin(req.query);
        resp := FromReply(r, l => IssuesBody(l));
      case GetAdminStats =>
        resp := Response(200, StatsBody(store.GetAdminStats(req.query)));
      case UpdateIssueStatusAdmin(id) =>
        var r := store.UpdateIssueStatusAdmin(id, req.body.status, req.auth.value.userId.value, advance1);
        resp := FromReply(r, s => StatusBody(s));
      case StaticImage(file) =>
        resp := Response(if file in images then 200 else 404, Page);
      case Banner =>
        resp := Response(200, Page);
      case Health =>
        resp := Response(200, Page);
  }
}
