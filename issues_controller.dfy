/** The pure rules of the citizen-facing issue handlers: the required
    fields, the image URL, the shape of a new issue and what a status
    update writes. The handlers themselves act on the store and live in
    IssueStore. */
module IssuesController {
  import opened Base
  import opened IssueModel
  import MlService

  const MISSING_FIELDS := "Missing required fields"
  const INVALID_STATUS := "Invalid status"
  const NOT_FOUND := "Issue not found"
  const MOCK_ID := "mock-id"
  const DB_NOTE := "DB not connected"
  const STATUS_UPDATED := "Status updated"
  const STATUS_UPDATED_MOCK := "Status updated (Mock)"

  /** `title`, `description`, `latitude` and `longitude` are all truthy. */
  predicate HasRequiredFields(b: Body) {
    Truthy(b.title) && Truthy(b.description) && Truthy(b.latitude) && Truthy(b.longitude)
  }

  /** The body's `status` is one of the three allowed values. */
  predicate IsAcceptedStatus(status: Option<string>) {
    status.Some? && IsAllowedStatus(status.value)
  }

  /** `path.replace(/\\/g, '/')`. */
  function ForwardSlashes(path: string): (r: string)
    ensures |r| == |path|
    ensures forall i :: 0 <= i < |path| ==> r[i] == (if path[i] == '\\' then '/' else path[i])
    ensures '\\' !in r
  {
    if path == [] then []
    else [if path[0] == '\\' then '/' else path[0]] + ForwardSlashes(path[1..])
  }

  /** The public URL of the uploaded image, or null without one. */
  function ImageUrl(file: Option<UploadedFile>): (r: Option<string>)
    ensures r.None? <==> file.None?
    ensures r.Some? ==>
      && |r.value| == |file.value.path| + 1
      && r.value[0] == '/'
      && '\\' !in r.value
      && forall i :: 0 <= i < |file.value.path| ==>
           r.value[i + 1] == (if file.value.path[i] == '\\' then '/' else file.value.path[i])
  {
    match file
    case None => None
    case Some(f) => Some("/" + ForwardSlashes(f.path))
  }

  /** The image path handed to the classifier: `req.file ? req.file.path : null`. */
  function ClassifierImagePath(file: Option<UploadedFile>): Option<string> {
    if file.Some? then Some(file.value.path) else None
  }

  /** The record `createIssue` builds from a validated body. */
  function NewIssue(userId: string, body: Body, file: Option<UploadedFile>,
                    prediction: MlService.Prediction, createdAt: nat, updatedAt: nat): (r: Issue)
    requires HasRequiredFields(body)
    ensures r.status == OPEN && r.userId == userId
    ensures r.severity == prediction.severity && r.aiConfidence == prediction.confidence
    ensures r.createdAt == createdAt && r.updatedAt == updatedAt
    ensures r.updatedBy.None? && r.category.None?
    ensures r.imageUrl == ImageUrl(file)
    ensures r.address == body.address
  {
    Issue(
      userId := userId,
      title := body.title.value,
      description := body.description.value,
      address := body.address,
      location := Location(body.latitude.value, body.longitude.value),
      imageUrl := ImageUrl(file),
      status := OPEN,
      severity := prediction.severity,
      aiConfidence := prediction.confidence,
      createdAt := createdAt,
      updatedAt := updatedAt,
      updatedBy := None,
      category := None)
  }

  /** An issue after a status update at `now`; `updatedBy` is written only
      when the update records its author. */
  function WithStatus(i: Issue, status: string, now: nat, author: Option<string>): Issue {
    i.(status := status, updatedAt := now, updatedBy := if author.Some? then author else i.updatedBy)
  }

  /** The collection after `doc(id).update(...)` succeeded. */
  function AfterStatusUpdate(docs: map<string, Issue>, id: string, status: string, now: nat,
                             author: Option<string>): (r: map<string, Issue>)
    requires id in docs
    ensures r.Keys == docs.Keys
    ensures forall k :: k in docs && k != id ==> r[k] == docs[k]
  {
    docs[id := WithStatus(docs[id], status, now, author)]
  }

  /** A status update changes status, updatedAt and (for the admin handler)
      updatedBy of the target issue; owner, text, location, image,
      severity, confidence, creation time and category are never touched. */
  lemma StatusUpdateWritesOnlyStatus(docs: map<string, Issue>, id: string, status: string, now: nat,
                                     author: Option<string>)
    requires id in docs
    ensures var after := AfterStatusUpdate(docs, id, status, now, author)[id];
      && after.status == status && after.updatedAt == now
      && after.updatedBy == (if author.Some? then author else docs[id].updatedBy)
      && after.(status := docs[id].status, updatedAt := docs[id].updatedAt, updatedBy := docs[id].updatedBy)
         == docs[id]
  {
  }
}
