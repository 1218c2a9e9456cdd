/** The backend's handlers over the `issues` collection. The collection is
    a map from document id to issue, held by a store object together with
    whether a store is configured at all (without one every handler runs
    in mock mode and nothing persists) and the last clock reading. Each
    clock read takes how far time moved as an input, so time never goes
    backwards. */
module IssueStore {
  import opened Base
  import opened IssueModel
  import opened IssuesController
  import opened AdminController
  import MlService
  import StoreQuery

  /** The 201 reply of `createIssue`: `{ id, ...newIssue }`, plus `note` in mock mode. */
  datatype Created = Created(id: string, issue: Issue, note: Option<string>)

  /** The reply of both status-update handlers: `{ id, status, message }`. */
  datatype StatusReply = StatusReply(id: string, status: string, message: string)

  /** The query of the public list: no filters, newest first. */
  const NO_FILTERS := Query(None, None, None, None, None)

  predicate WellStamped(i: Issue, now: nat) {
    i.createdAt <= i.updatedAt <= now
  }

  class Store {
    var configured: bool
    var docs: map<string, Issue>
    var clock: nat

    /** Nothing is stored in mock mode, and no issue was created or
        updated after its last update or in the future. */
    ghost predicate Valid()
      reads this
    {
      && (!configured ==> docs == map[])
      && forall k :: k in docs ==> WellStamped(docs[k], clock)
    }

    /** A store over an existing collection, or mock mode. */
    constructor (configured: bool, existing: map<string, Issue>, now: nat)
      requires forall k :: k in existing ==> WellStamped(existing[k], now)
      ensures Valid()
      ensures this.configured == configured && clock == now
      ensures docs == if configured then existing else map[]
    {
      this.configured := configured;
      docs := if configured then existing else map[];
      clock := now;
    }

    /** `new Date()`: the clock moved on by `advance`. */
    method ReadClock(advance: nat) returns (t: nat)
      modifies this`clock
      ensures t == old(clock) + advance && clock == t
    {
      clock := clock + advance;
      t := clock;
    }

    /** `createIssue`. The classifier is consulted only for a valid body,
        with the request recorded in `consulted`; `newId` is the id the
        store would assign. */
    method CreateIssue(userId: string, body: Body, file: Option<UploadedFile>,
                       classifier: MlService.MlRequest -> MlService.MlOutcome,
                       newId: string, advance1: nat, advance2: nat)
      returns (r: Reply<Created>, ghost consulted: Option<MlService.MlRequest>)
      requires Valid()
      requires newId !in docs
      modifies this
      ensures Valid() && configured == old(configured)
      ensures !HasRequiredFields(body) ==>
        r == Fail(400, MISSING_FIELDS) && consulted.None? && docs == old(docs) && clock == old(clock)
      ensures HasRequiredFields(body) ==>
        && consulted == Some(MlService.BuildRequest(ClassifierImagePath(file), body.description))
        && r.Ok? && r.code == 201
        && r.body.issue == NewIssue(userId, body, file, MlService.Normalize(classifier(consulted.value)),
                                    r.body.issue.createdAt, r.body.issue.updatedAt)
        && old(clock) <= r.body.issue.createdAt <= r.body.issue.updatedAt == clock
        && (configured ==> r.body.id == newId && r.body.note.None? && docs == old(docs)[newId := r.body.issue])
        && (!configured ==> r.body.id == MOCK_ID && r.body.note == Some(DB_NOTE) && docs == old(docs))
    {
      if !HasRequiredFields(body) {
        return Fail(400, MISSING_FIELDS), None;
      }
      consulted := Some(MlService.BuildRequest(ClassifierImagePath(file), body.description));
      var analysis := MlService.PredictSeverity(ClassifierImagePath(file), body.description, classifier);
      var createdAt := ReadClock(advance1);
      var updatedAt := ReadClock(advance2);
      var issue := NewIssue(userId, body, file, analysis, createdAt, updatedAt);
      if configured {
        docs := docs[newId := issue];
        r := Ok(201, Created(newId, issue, None));
      } else {
        r := Ok(201, Created(MOCK_ID, issue, Some(DB_NOTE)));
      }
    }

    /** `updateIssueStatus`: no `updatedBy` is written. Updating a document
        that does not exist makes the store throw, which is a 500. */
    method UpdateIssueStatus(id: string, status: Option<string>, advance: nat) returns (r: Reply<StatusReply>)
      requires Valid()
      modifies this
      ensures Valid() && configured == old(configured)
      ensures !IsAcceptedStatus(status) ==>
        r == Fail(400, INVALID_STATUS) && docs == old(docs) && clock == old(clock)
      ensures IsAcceptedStatus(status) && !configured ==>
        r == Ok(200, StatusReply(id, status.value, STATUS_UPDATED_MOCK)) && docs == old(docs)
      ensures IsAcceptedStatus(status) && configured && id !in old(docs) ==>
        r == Fail(500, INTERNAL_ERROR) && docs == old(docs)
      ensures IsAcceptedStatus(status) && configured && id in old(docs) ==>
        && r == Ok(200, StatusReply(id, status.value, STATUS_UPDATED))
        && old(clock) <= clock
        && docs == AfterStatusUpdate(old(docs), id, status.value, clock, None)
    {
      if !IsAcceptedStatus(status) {
        return Fail(400, INVALID_STATUS);
      }
      if configured {
        var now := ReadClock(advance);
        if id in docs {
          docs := AfterStatusUpdate(docs, id, status.value, now, None);
          r := Ok(200, StatusReply(id, status.value, STATUS_UPDATED));
        } else {
          r := Fail(500, INTERNAL_ERROR);
        }
      } else {
        r := Ok(200, StatusReply(id, status.value, STATUS_UPDATED_MOCK));
      }
    }

    /** `updateIssueStatusAdmin`: also records the caller in `updatedBy`. */
    method UpdateIssueStatusAdmin(id: string, status: Option<string>, callerId: string, advance: nat)
      returns (r: Reply<StatusReply>)
      requires Valid()
      modifies this
      ensures Valid() && configured == old(configured)
      ensures !IsAcceptedStatus(status) ==>
        r == Fail(400, INVALID_STATUS) && docs == old(docs) && clock == old(clock)
      ensures IsAcceptedStatus(status) && !configured ==>
        r == Ok(200, StatusReply(id, status.value, STATUS_UPDATED_MOCK)) && docs == old(docs)
      ensures IsAcceptedStatus(status) && configured && id !in old(docs) ==>
        r == Fail(500, INTERNAL_ERROR) && docs == old(docs)
      ensures IsAcceptedStatus(status) && configured && id in old(docs) ==>
        && r == Ok(200, StatusReply(id, status.value, STATUS_UPDATED_ADMIN))
        && old(clock) <= clock
        && docs == AfterStatusUpdate(old(docs), id, status.value, clock, Some(callerId))
    {
      if !IsAcceptedStatus(status) {
        return Fail(400, INVALID_STATUS);
      }
      if !configured {
        return Ok(200, StatusReply(id, status.value, STATUS_UPDATED_MOCK));
      }
      var now := ReadClock(advance);
      if id in docs {
        docs := AfterStatusUpdate(docs, id, status.value, now, Some(callerId));
        r := Ok(200, StatusReply(id, status.value, STATUS_UPDATED_ADMIN));
      } else {
        r := Fail(500, INTERNAL_ERROR);
      }
    }

    /** `getIssues`: every stored issue, newest first. */
    method GetIssues() returns (r: seq<Doc>)
      ensures !configured ==> r == []
      ensures configured ==> StoreQuery.IsListing(r, docs, NO_FILTERS, "createdAt", true)
    {
      if !configured {
        return [];
      }
      r := StoreQuery.CollectSorted(docs, NO_FILTERS, "createdAt", true);
    }

    /** `getIssueById`. */
    function GetIssueById(id: string): (r: Reply<Doc>)
      reads this
      ensures r.Ok? <==> configured && id in docs
      ensures r.Ok? ==> r.code == 200 && r.body == Doc(id, docs[id])
      ensures r.Fail? ==> r.code == 404 && r.error == NOT_FOUND
    {
      if !configured then Fail(404, NOT_FOUND)
      else if id !in docs then Fail(404, NOT_FOUND)
      else Ok(200, Doc(id, docs[id]))
    }

    /** `getAllIssuesForAdmin`: the AND of the supplied filters, ordered as
        requested. */
    method GetAllIssuesForAdmin(q: Query) returns (r: Reply<seq<Doc>>)
      ensures !configured ==> r == Ok(200, [])
      ensures configured && !IsValidOrdering(q) ==> r == Fail(500, INTERNAL_ERROR)
      ensures configured && IsValidOrdering(q) ==>
        r.Ok? && r.code == 200 &&
        StoreQuery.IsListing(r.body, docs, q, SortField(q), Descending(q))
    {
      if !configured {
        return Ok(200, []);
      }
      if !IsValidOrdering(q) {
        return Fail(500, INTERNAL_ERROR);
      }
      var listed := StoreQuery.CollectSorted(docs, q, SortField(q), Descending(q));
      r := Ok(200, listed);
    }

    /** `getAdminStats`: counts over the whole collection; the query is
        accepted and not read. */
    function GetAdminStats(q: Query): (r: Stats)
      reads this
      ensures !configured ==> r == ZERO_STATS
      ensures configured ==> r == StatsOf(docs)
      ensures r.total == (if configured then |docs| else 0)
      ensures r.pending + r.inProgress + r.resolved <= r.total
      ensures r.bySeverity.low + r.bySeverity.medium + r.bySeverity.high <= r.total
    {
      StatusCountsBounded(docs);
      SeverityCountsBounded(docs);
      if configured then StatsOf(docs) else ZERO_STATS
    }
  }
}

/** Properties of the listings the store handlers return. */
module IssueListings {
  import opened Base
  import opened IssueModel
  import opened StoreQuery
  import opened AdminController
  import IssuesController
  import MlService
  import IssueStore

  /** The public list holds every stored issue once, newest first. */
  lemma PublicListIsNewestFirst(r: seq<Doc>, docs: map<string, Issue>)
    requires IsListing(r, docs, IssueStore.NO_FILTERS, "createdAt", true)
    ensures forall k :: k in docs ==> Doc(k, docs[k]) in r
    ensures |r| == |docs|
    ensures forall i, j :: 0 <= i < j < |r| ==> r[j].data.createdAt <= r[i].data.createdAt
  {
    ListingLength(r, docs, IssueStore.NO_FILTERS, "createdAt", true);
    assert (set k | k in docs && Selected(docs[k], IssueStore.NO_FILTERS, "createdAt")) == docs.Keys;
    forall i, j | 0 <= i < j < |r| ensures r[j].data.createdAt <= r[i].data.createdAt {
      assert Precedes(r[i], r[j], "createdAt", true);
    }
  }

  /** Without sortBy and order the admin list is newest first. */
  lemma AdminDefaultOrdering(q: Query, r: seq<Doc>, docs: map<string, Issue>)
    requires q.sortBy.None? && q.order.None?
    requires IsListing(r, docs, q, SortField(q), Descending(q))
    ensures IsValidOrdering(q)
    ensures forall i, j :: 0 <= i < j < |r| ==> r[j].data.createdAt <= r[i].data.createdAt
  {
    DescendingByDefault(q);
    forall i, j | 0 <= i < j < |r| ensures r[j].data.createdAt <= r[i].data.createdAt {
      assert Precedes(r[i], r[j], "createdAt", true);
    }
  }

  /** Ordering by the document id lists every issue that passes the
      filters, each once, in id order. */
  lemma ListingByDocumentId(q: Query, r: seq<Doc>, docs: map<string, Issue>)
    requires q.sortBy == Some(DOCUMENT_ID)
    requires IsListing(r, docs, q, SortField(q), Descending(q))
    ensures forall k :: k in docs ==> (Doc(k, docs[k]) in r <==> MatchesFilters(docs[k], q))
    ensures |r| == |set k | k in docs && MatchesFilters(docs[k], q)|
    ensures forall i, j :: 0 <= i < j < |r| ==>
      if Descending(q) then StrLe(r[j].id, r[i].id) else StrLe(r[i].id, r[j].id)
  {
    ListingLength(r, docs, q, DOCUMENT_ID, Descending(q));
    assert (set k | k in docs && Selected(docs[k], q, DOCUMENT_ID))
        == (set k | k in docs && MatchesFilters(docs[k], q));
    forall i, j | 0 <= i < j < |r|
      ensures if Descending(q) then StrLe(r[j].id, r[i].id) else StrLe(r[i].id, r[j].id)
    {
      assert Precedes(r[i], r[j], DOCUMENT_ID, Descending(q));
    }
  }

  /** `createIssue` never sets a category, so a truthy category filter
      never matches an issue it created. */
  lemma CategoryFilterSkipsCreatedIssues(q: Query, userId: string, body: Body, file: Option<UploadedFile>,
                                         p: MlService.Prediction, createdAt: nat, updatedAt: nat)
    requires IssuesController.HasRequiredFields(body)
    requires Truthy(q.category)
    ensures !MatchesFilters(IssuesController.NewIssue(userId, body, file, p, createdAt, updatedAt), q)
  {
  }
}
