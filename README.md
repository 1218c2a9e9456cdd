# InfraSense core in Dafny

InfraSense lets citizens report infrastructure problems (a title, a
description, a map location and optionally a photo). A classifier service
assigns each report a severity. Government users then move reports through
the statuses open, in-progress and resolved. This project models the parts
of the system that decide what happens to a report:

- the backend's issue handlers over the `issues` collection, as a store
  class (`IssueStore.Store`) holding the collection as a map from id to
  issue, a flag for "a store is configured" (mock mode otherwise) and a
  clock;
- the query semantics those handlers rely on: equality filters,
  `orderBy` over the store's typed value order, and the fact that
  `orderBy` drops documents lacking the field (`StoreQuery`, with
  `CollectSorted` as an insertion-based engine proved to answer a query);
- the government-role guard (`Auth`), the two route tables and the app's
  layers (`Routes`), and one request served end to end (`Server.Serve`);
- the severity pipeline: the backend's normalisation of the classifier's
  reply (`MlService`) and the classifier's fusion rule (`Predictor`);
- the client's rules: the government dashboard's queries and local list
  update, the citizen dashboard's counts, the report form, the sidebar
  menu and the two badges.

The central security property is `Routes.PrivilegedNeedsGovRole`. Whatever
the method, path and claims, a request reaches a status write or an admin
read only if `requireGovRole` granted it. `Server.Serve` carries this down
to the store: unless the guard grants, no existing issue changes, and an
anonymous request changes nothing at all.

Where the code and its documentation disagree, the model follows the code:

- `getAdminStats` ignores its query string, although the government
  dashboard sends its filters with it (`IssueStore.Store.GetAdminStats`
  takes the query and does not read it).
- `predictSeverity` lower-cases whatever label it gets and does not force
  it into low/medium/high (`MlService.UnknownLabelPassesThrough`).
- The citizen-route status update writes no `updatedBy`; only the admin
  route records the caller.
- `createIssue` never sets `category`, so the admin category filter
  never matches a report created through the API
  (`IssueListings.CategoryFilterSkipsCreatedIssues`).
- `sortBy` and `order` defaults apply only when the parameter is absent.
  The store's Node.js client lower-cases `order` before checking it, so
  "DESC" is accepted. A `sortBy` that is not a valid field path (empty,
  holding one of `~ * / [ ]`, or with an empty part between dots, as in
  ".a", "a." or "a..b"), or an `order` that does not lower-case to "asc"
  or "desc", makes the store throw, which the handler turns into a 500
  (`AdminController.IsValidOrdering`).
- Updating a document that does not exist makes the store throw: 500, not
  404.

Time is a natural number that each clock read advances by an input amount.
Coordinates, timestamps and labels are kept as the strings or numbers the
code passes along; `parseFloat` and ISO formatting are not interpreted.
The classifier and the HTTP call to it are a function parameter from the
request to the outcome.

## Model

| member | source | states |
|---|---|---|
| IssuesController.ForwardSlashes | src/controllers/issuesController.js:115 | `replace(/\\/g, '/')`: same length, each backslash becomes "/", every other character kept, no backslash left |
| IssuesController.ImageUrl | src/controllers/issuesController.js:113-116 | null exactly without a file; otherwise "/" followed by the upload path with slashes normalised, so it starts with "/" and holds no backslash |
| IssuesController.NewIssue | src/controllers/issuesController.js:120-135 | a new issue is open, belongs to the caller, takes severity and confidence exactly from the prediction, has no updatedBy and no category, and keeps the body's address and the image URL |
| IssuesController.HasRequiredFields | src/controllers/issuesController.js:109 | title, description, latitude and longitude are all truthy |
| IssuesController.IsAcceptedStatus | src/controllers/issuesController.js:155 | the status is open, in-progress or resolved |
| IssuesController.WithStatus | src/controllers/issuesController.js:160-163 | the issue with the new status and updatedAt, and updatedBy when an author is given |
| IssuesController.AfterStatusUpdate | src/controllers/issuesController.js:160-163 | a successful update keeps the set of ids and every other issue |
| IssuesController.StatusUpdateWritesOnlyStatus | src/controllers/issuesController.js:160-163 | the target issue changes only in status, updatedAt and (when an author is recorded) updatedBy |
| IssueStore.Store.constructor | src/controllers/issuesController.js:101 | a store over an existing collection, or an empty mock store |
| IssueStore.Store.ReadClock | src/controllers/issuesController.js:133-134 | each clock read returns the previous reading plus the elapsed amount |
| IssueStore.Store.CreateIssue | src/controllers/issuesController.js:104-148 | missing fields give 400 "Missing required fields" with neither classifier nor store touched; otherwise the classifier is asked once, createdAt ≤ updatedAt from two clock reads, and exactly one issue is added under the returned id, or nothing is stored and the reply carries "mock-id" and "DB not connected" |
| IssueStore.Store.UpdateIssueStatus | src/controllers/issuesController.js:150-172 | a status outside the enum gives 400 and changes nothing; mock mode replies "Status updated (Mock)" and changes nothing; a missing issue gives 500; otherwise only the target's status and updatedAt change, without updatedBy |
| IssueStore.Store.GetIssues | src/controllers/issuesController.js:174-186 | [] without a store; otherwise every stored issue once, newest first |
| IssueStore.Store.GetIssueById | src/controllers/issuesController.js:189-208 | 200 with the stored issue iff a store is configured and holds the id; 404 "Issue not found" otherwise |
| IssueStore.Store.GetAllIssuesForAdmin | src/controllers/adminController.js:4-39 | [] without a store; 500 for an ordering the store rejects; otherwise exactly the issues matching every supplied filter that have the sort field, each once, ordered by the requested field and direction |
| IssueStore.Store.GetAdminStats | src/controllers/adminController.js:42-74 | all zeros without a store; otherwise the counts over the whole collection whatever the query; total is the collection size, and both the status and severity counts sum to at most total |
| IssueStore.Store.UpdateIssueStatusAdmin | src/controllers/adminController.js:77-101 | the enum check comes before any store access; mock mode changes nothing; a missing issue gives 500; otherwise status, updatedAt and updatedBy = caller are written and nothing else |
| IssueListings.PublicListIsNewestFirst | src/controllers/issuesController.js:179-181 | the public list holds every stored issue, has the collection's size and is ordered by createdAt descending |
| IssueListings.AdminDefaultOrdering | src/controllers/adminController.js:6 | without sortBy and order the request is valid and the list is newest first |
| IssueListings.ListingByDocumentId | src/controllers/adminController.js:26 | with sortBy `__name__` (the document-id path) the admin listing holds exactly the issues that pass the filters, each once, ordered by id in the requested direction |
| IssueListings.CategoryFilterSkipsCreatedIssues | src/controllers/adminController.js:21-23 | a truthy category filter never matches an issue built by createIssue |
| AdminController.SortField | src/controllers/adminController.js:6 | the sortBy parameter, "createdAt" when absent |
| AdminController.SortOrder | src/controllers/adminController.js:6 | the order parameter, "desc" when absent |
| AdminController.Direction | src/controllers/adminController.js:26 | the order as the store client reads it, lower-cased |
| AdminController.IsValidOrdering | src/controllers/adminController.js:26 | the store accepts the ordering iff the field is a valid field path (non-empty, none of `~ * / [ ]`, no empty part between dots) and the direction lower-cases to "asc" or "desc" |
| AdminController.PlainNameIsValidPath | src/controllers/adminController.js:26 | a non-empty name of letters only, such as createdAt, is a valid field path |
| AdminController.ReservedCharRejectsOrdering | src/controllers/adminController.js:26 | a sortBy holding a reserved character, such as "a/b", is refused, so the listing answers 500 |
| AdminController.Descending | src/controllers/adminController.js:26 | the listing is newest first iff the direction is "desc" |
| AdminController.DescendingByDefault | src/controllers/adminController.js:6 | without an order the listing is descending and valid iff the field is a valid field path; without sortBy as well it is valid |
| AdminController.StatsOf | src/controllers/adminController.js:57-67 | total is the number of issues; each status count is at most total |
| AdminController.SubsetCount | src/controllers/adminController.js:58-66 | a filtered part of the collection is no larger than the collection |
| AdminController.PartsCount | src/controllers/adminController.js:58-66 | three disjoint filters count at most the whole, exactly the whole when they cover it |
| AdminController.StatusCountsBounded | src/controllers/adminController.js:59-61 | pending + inProgress + resolved ≤ total, with equality when every stored status is in the enum |
| AdminController.SeverityCountsBounded | src/controllers/adminController.js:62-66 | low + medium + high ≤ total |
| StoreQuery.MatchesFilters | src/controllers/adminController.js:15-23 | each truthy status, severity and category filter equals the issue's field |
| StoreQuery.StrLeTotal | src/controllers/adminController.js:26 | the store's string order is total |
| StoreQuery.StrLeTrans | src/controllers/adminController.js:26 | the store's string order is transitive |
| StoreQuery.KeyLeTotal | src/controllers/adminController.js:26 | the typed value order (null < numbers < strings) is total |
| StoreQuery.KeyLeTrans | src/controllers/adminController.js:26 | the typed value order is transitive |
| StoreQuery.PrecedesTotal | src/controllers/adminController.js:26 | any two documents can be ordered in either direction |
| StoreQuery.PrecedesTrans | src/controllers/adminController.js:26 | the document order is transitive |
| StoreQuery.InsertKeepsOrder | src/controllers/adminController.js:26 | inserting at the first place that fits keeps a list ordered |
| StoreQuery.InsertKeepsDistinct | src/controllers/adminController.js:29-32 | inserting a new id keeps ids distinct and adds exactly that document |
| StoreQuery.InsertOrdered | src/controllers/adminController.js:26 | an ordered list with distinct ids stays ordered and distinct with the new document added |
| StoreQuery.CollectSorted | src/controllers/adminController.js:12-32 | the result holds exactly the stored documents passing the filters and having the sort field, each once, in the requested order |
| StoreQuery.ListingIsConjunction | src/controllers/adminController.js:15-23 | a stored issue is listed iff it satisfies every truthy filter (an absent or empty one matches everything) and has the sort field (every issue has the document id `__name__`) |
| StoreQuery.ListingLength | src/controllers/adminController.js:28-32 | a listing has exactly as many entries as there are selected documents |
| StoreQuery.IdsCount | src/controllers/adminController.js:29-32 | a list with distinct ids has as many ids as entries |
| Auth.ResolveRole | src/middlewares/auth.js:54-55 | the role is the truthy `publicMetadata.role`, or "citizen" when the claims, the metadata or the role is missing |
| Auth.DecisionCode | src/middlewares/auth.js:48-76 | each verdict has its own status: 200 iff granted, 401 iff unauthenticated, 403 iff forbidden, 500 iff the guard failed; `Routes.Pass` answers with it |
| Auth.RequireGovRole | src/middlewares/auth.js:44-77 | 500 iff there is no auth object; 401 iff the user id is falsy; granted iff signed in with role government or admin, with the resolved role attached; otherwise 403 carrying the resolved role; only the auth object is read |
| Auth.NoRoleIsDenied | src/middlewares/auth.js:55-66 | claims without a role resolve to citizen, and a signed-in citizen gets 403 with that role |
| Routes.IssuesRoute | src/routes/issuesRoutes.js:9-16 | the create chain is sign-in, upload, handler; any chain with the role guard starts with sign-in then the guard |
| Routes.AdminRoute | src/routes/adminRoutes.js:12-21 | every request into the admin router meets sign-in then the role guard first, routed or not |
| Routes.Dispatch | src/app.js:27-55 | every request gets a chain |
| Routes.Pass | src/middlewares/auth.js:36-77 | a request reaches only a handler that is in its chain |
| Routes.ChainShape | src/routes/issuesRoutes.js:13-16 | every chain ending in a privileged handler starts with both guards; the create chain and every guarded chain start with sign-in |
| Routes.GuardedChainNeedsGrant | src/routes/adminRoutes.js:12 | nothing after the two guards runs unless the role guard granted |
| Routes.PrivilegedNeedsGovRole | src/routes/issuesRoutes.js:16 | for any method, path and claims, a status write or admin read is reached only with a granted role |
| Routes.CreateNeedsSignIn | src/routes/issuesRoutes.js:13 | creating an issue is reached only by a signed-in caller |
| Routes.GuardFailureNeedsNoAuth | src/middlewares/auth.js:73-76 | the guard's 500 needs a request without an auth object and a chain containing the guard |
| Routes.NoGuardFailureOnRoutes | src/routes/adminRoutes.js:12 | through the app's routes the guard's 500 branch is unreachable, because sign-in always runs first |
| Routes.PublicReads | src/routes/issuesRoutes.js:9-10 | GET (and HEAD) of the list and of one issue reach their handlers whatever the claims |
| Routes.CreateRoute | src/routes/issuesRoutes.js:13 | POST runs sign-in, then the upload, then createIssue; without sign-in it stops with 401 |
| Routes.DispatchIssues | src/app.js:45 | every non-preflight request under /api/issues enters the issues router, and unmatched ones get the 404 |
| Routes.DispatchAdmin | src/app.js:46 | every non-preflight request under /api/admin enters the admin router |
| Routes.AdminStatusRoute | src/routes/adminRoutes.js:12-21 | PATCH issues/:id/status runs sign-in, the role guard, then the admin update for that id |
| Routes.PassGuards | src/middlewares/auth.js:36-77 | behind both guards: 401 when not signed in, 403 with the resolved role when not granted, the responder otherwise |
| Routes.AdminListRoute | src/routes/adminRoutes.js:15 | GET /api/admin/issues reaches the admin list for a granted caller; any other caller is stopped by a guard |
| Routes.AdminStatsRoute | src/routes/adminRoutes.js:18 | GET /api/admin/stats reaches the counts for a granted caller; any other caller is stopped by a guard |
| Routes.IssueStatusRoute | src/routes/issuesRoutes.js:16 | PATCH /api/issues/:id/status reaches the status write for that id for a granted caller; any other caller is stopped by a guard |
| Routes.AdminForbidsCitizens | src/routes/adminRoutes.js:12 | a signed-in non-government caller gets 403 with its role on every admin path |
| Server.Serve | src/app.js:45-46 | a request stopped by a guard gets that guard's reply and changes nothing; without a grant no existing issue changes; an anonymous request changes nothing; no issue is ever deleted and at most the new id is added |
| Base.ToLower | src/services/mlService.js:27 | same length, each ASCII upper-case letter lowered and every other character kept |
| MlService.BuildRequest | src/services/mlService.js:9-14 | the text is the description or ""; an image is attached exactly when the path is set |
| MlService.Normalize | src/services/mlService.js:22-49 | "success" with data: the first truthy of final_severity, image severity or "medium", lower-cased, and the confidence or 0; any other reply: "medium" and 0; a failure: "medium", 0 and "ML service unreachable"; predicted_class is always "unknown" |
| MlService.LowerHasNoUpper | src/services/mlService.js:27 | the lower-cased severity has no upper-case letter |
| MlService.PredictSeverity | src/services/mlService.js:7-50 | never fails: the result is the classifier's outcome for the built request passed through Normalize; an unreachable classifier gives the error marker, and any error comes with "medium" and 0 |
| MlService.UnknownLabelPassesThrough | src/services/mlService.js:27 | for every non-empty final_severity and any image analysis, the stored severity is that label lower-cased, of the same length and with no upper-case ASCII letter, and no error is recorded, so a label outside low/medium/high is not replaced by the fallback |
| MlService.CriticalStaysCritical | src/services/mlService.js:27 | "Critical" is stored as "critical" |
| Predictor.CombinePredictions | predictor.py:90-108 | the result is a label; text score 2 gives High; a confident image High gives High; otherwise Low iff the weighted score is below 0.6 and High iff it is at least 1.6 |
| Predictor.CombineOnModelScores | predictor.py:90-108 | for scores 0..2: High iff text is 2 or the image is 2 with confidence ≥ 0.7; Low iff text is 0 and the image ≤ 1; Medium otherwise; the weighted High branch never decides |
| Predictor.LabelsHaveScores | predictor.py:14-87 | every image label has a score, Low/Medium/High map to 0/1/2 |
| Predictor.PredictFinal | predictor.py:110-126 | defined iff the image index names a label; final_severity is the fusion of the text index, the image label's score and the confidence |
| Predictor.LowerOfLabel | predictor.py:14 | the labels lower-case to low, medium and high |
| Predictor.ApiReply | api.py:34-37 | the service wraps a result as status "success" with final_severity and the image analysis |
| Predictor.ServiceReplyNormalizes | predictor.py:120-126 | a reply of the classifier service is stored as low, medium or high (the fused label lower-cased) with the image confidence |
| GovernmentDashboard.Get | src/pages/GovernmentDashboard.jsx:74-92 | no value iff no entry carries the name; otherwise the value of the first entry under that name |
| GovernmentDashboard.ParseQuery | src/controllers/adminController.js:6 | the query object the server reads: one field per parameter name, through `Get` |
| GovernmentDashboard.ParseAppend | src/pages/GovernmentDashboard.jsx:74-92 | appending a parameter under a new name keeps the names distinct and sets that query field only |
| GovernmentDashboard.AppendNew | src/pages/GovernmentDashboard.jsx:74-92 | appending a new name keeps the names distinct, reads back the appended value and changes no other name's value |
| GovernmentDashboard.GetAppend | src/pages/GovernmentDashboard.jsx:74-92 | an append never changes the value of a name already present |
| GovernmentDashboard.StatsParams | src/pages/GovernmentDashboard.jsx:74-76 | status and severity are sent only when not "all", each once |
| GovernmentDashboard.IssueParams | src/pages/GovernmentDashboard.jsx:88-92 | the same filters, plus sortBy=createdAt and order = the selected order, each name once |
| GovernmentDashboard.DashboardQueryMeaning | src/controllers/adminController.js:6-26 | the list request selects issues with the chosen status and severity ("all" or "" lets all through), sorted by createdAt, and is accepted iff the order is asc or desc |
| GovernmentDashboard.UpdateReachesAdminHandler | src/pages/GovernmentDashboard.jsx:117-127 | the PATCH the page sends reaches the admin update for that id iff the signed-in caller has a government role, else 403 |
| GovernmentDashboard.Touch | src/pages/GovernmentDashboard.jsx:132-139 | the matching issue with the new status and updatedAt; any other issue as it was |
| GovernmentDashboard.LocalStatusUpdate | src/pages/GovernmentDashboard.jsx:131-141 | same length and ids; only the matching issue changes, in status and updatedAt |
| GovernmentDashboard.LocalUpdateKeepsOrder | src/pages/GovernmentDashboard.jsx:131-141 | the local update keeps a list ordered by createdAt and its ids distinct |
| GovernmentDashboard.LocalUpdateTracksStore | src/pages/GovernmentDashboard.jsx:131-141 | after a successful admin update the local list stays ordered by createdAt and lists each issue once; every other issue equals the stored one, and the updated one equals it in every field but updatedAt (the browser's clock locally, the server's in the store) and updatedBy (the caller, recorded only in the store) |
| GovernmentDashboard.IssuesOrEmpty | src/pages/GovernmentDashboard.jsx:101 | an array response is kept, anything else leaves the list empty |
| GovernmentDashboard.Dashboard.constructor | src/pages/GovernmentDashboard.jsx:19-27 | no issues, no stats, loading, no update running, filters "all" and newest first |
| GovernmentDashboard.Dashboard.BeginFetch | src/pages/GovernmentDashboard.jsx:68-92 | loading turns on and both requests carry the current filters |
| GovernmentDashboard.Dashboard.FinishFetch | src/pages/GovernmentDashboard.jsx:84-107 | whatever arrived is stored, and loading is off in every case |
| GovernmentDashboard.Dashboard.HandleStatusUpdate | src/pages/GovernmentDashboard.jsx:111-154 | no request is sent iff getToken rejects, otherwise the PATCH goes to the issue's admin status path; the list changes only on an ok response, the updating marker is cleared after every attempt, and a refresh follows an ok response |
| UserDashboard.UserIssues | src/pages/DashboardPage.jsx:21 | exactly the issues whose userId is the current user, in the order the server sent them |
| UserDashboard.Stats | src/pages/DashboardPage.jsx:24-28 | total is the number of the user's issues, resolved and inProgress count those with that status |
| UserDashboard.CountStatus | src/pages/DashboardPage.jsx:26-27 | a status count never exceeds the list length |
| UserDashboard.TwoStatusesBounded | src/pages/DashboardPage.jsx:26-27 | two different statuses together count at most the list length |
| UserDashboard.StatsBounded | src/pages/DashboardPage.jsx:24-28 | resolved + inProgress ≤ total ≤ number of issues received |
| UserDashboard.Recent | src/pages/DashboardPage.jsx:31 | the first min(4, n) of the user's issues in server order |
| UserDashboard.UserIssuesDistinct | src/pages/DashboardPage.jsx:21 | filtering keeps ids distinct |
| UserDashboard.TotalMatchesStore | src/pages/DashboardPage.jsx:17-25 | over the public list, total is the number of stored issues the user filed |
| UserDashboard.AfterFetch | src/pages/DashboardPage.jsx:15-37 | loading ends; a failure keeps the counts and recent list; a response sets both from the user's issues |
| ReportIssue.CanSubmit | src/pages/ReportIssuePage.jsx:38 | title, description, latitude and longitude are all non-empty |
| ReportIssue.Entries | src/pages/ReportIssuePage.jsx:48-57 | the five text entries in append order, then the image when one is chosen |
| ReportIssue.SubmitDisabled | src/pages/ReportIssuePage.jsx:177 | disabled while submitting or while a coordinate is missing |
| ReportIssue.AddressToSend | src/pages/ReportIssuePage.jsx:53 | the picked address, or "latitude, longitude" when it is empty |
| ReportIssue.BuildFormData | src/pages/ReportIssuePage.jsx:48-57 | the five text fields in order, then the image only when one was chosen |
| ReportIssue.EntriesShape | src/pages/ReportIssuePage.jsx:48-57 | five text entries, the fifth being the address to send (never empty), and a sixth (the image) exactly when chosen |
| ReportIssue.SubmittedFormPassesServer | src/pages/ReportIssuePage.jsx:38-53 | a form the page sends parses on the server to the same title, description and coordinates, so it passes the required-field check |
| ReportIssue.SelectLocation | src/pages/ReportIssuePage.jsx:28-35 | coordinates and address come from the picker, every other field is kept |
| ReportIssue.EnabledButtonForValidForm | src/pages/ReportIssuePage.jsx:177 | when not submitting, the button is enabled iff both coordinates are set, so every valid form can be sent |
| ReportIssue.ReportPage.constructor | src/pages/ReportIssuePage.jsx:9-18 | an empty form, not submitting, no preview |
| ReportIssue.ReportPage.ChooseImage | src/pages/ReportIssuePage.jsx:20-26 | a chosen file sets the image and preview; no file changes nothing |
| ReportIssue.ReportPage.PickLocation | src/pages/ReportIssuePage.jsx:28-35 | the form becomes the picked location applied to it |
| ReportIssue.ReportPage.Submit | src/pages/ReportIssuePage.jsx:37-92 | nothing is sent for an incomplete form or when getToken rejects; otherwise the payload is sent; an accepted report resets every field and the preview, and submitting ends false |
| Sidebar.UserRole | src/components/layout/Sidebar.jsx:10 | the truthy metadata role, or "citizen" |
| Sidebar.Menu | src/components/layout/Sidebar.jsx:16-31 | government users get the government entry first, then the four user entries; others get the four; only the government entry is highlighted |
| Sidebar.UserMenuIds | src/components/layout/Sidebar.jsx:16-28 | the four user entries have distinct ids, none equal to the government entry's |
| Sidebar.MenuIdsDistinct | src/components/layout/Sidebar.jsx:16-51 | menu ids are distinct, so at most one entry matches the current page; the government entry shows iff government |
| Sidebar.IsGovernment | src/components/layout/Sidebar.jsx:11 | the resolved role is "government" or "admin" |
| Sidebar.RoleLabel | src/components/layout/Sidebar.jsx:82 | the government line (building icon, "Government") iff isGovernment, the citizen line (person icon, "Citizen") otherwise |
| Sidebar.SidebarAgreesWithGuard | src/components/layout/Sidebar.jsx:10-11 | when the client user's public metadata equals the session token's, the sidebar's government test holds iff the server guard grants; a token without public metadata is refused with 403 as a citizen whatever the sidebar shows |
| StatusBadge.StyleOf | src/components/common/StatusBadge.jsx:5-11 | the table entry of a known status, the open entry otherwise |
| StatusBadge.CaptionsOfStatuses | src/components/common/StatusBadge.jsx:5-11 | the table covers exactly the allowed statuses; "Pending" iff not in-progress or resolved, "In Progress" and "Resolved" iff those statuses |
| SeverityBadge.ColorOf | src/components/common/SeverityBadge.jsx:4-11 | the table colour of a known severity, the medium colour otherwise |
| SeverityBadge.Capitalize | src/components/common/SeverityBadge.jsx:12 | same length, first character upper-cased, the rest unchanged |
| SeverityBadge.CaptionRestoresLabel | src/components/common/SeverityBadge.jsx:12 | a classifier label, lower-cased and capitalised again, reads as the label, and has its own colour |
| SeverityBadge.ColorsDistinct | src/components/common/SeverityBadge.jsx:4-11 | green iff low, red iff high, yellow for everything else |

## Left out

- The document store's client, its initialisation and its failures other than those named above (transient errors, composite-index errors, rejection of `undefined` field values such as an absent address) are not modelled. An absent address is stored as no field.
- Ties between documents with equal sort keys are not ordered; the store's tie-break by document id is not modelled. Dotted field paths and ordering by `location` are not modelled either: such a field is treated as missing. Ordering by the document id `__name__` is modelled as ordering by the id string, since all the issues are in one collection.
- Sidebar.SidebarAgreesWithGuard: the agreement is promised only when the client's user object and the session token carry the same public metadata; whether the token includes it, and how stale it is, depends on the identity provider's configuration, which is not modelled.
- A query parameter given more than once becomes an array on the server; the model reads one value per name.
- Token verification by the identity provider inside `requireAuth`, and the multipart parser's own errors and file naming, are outside the model: the verified claims and the stored upload path are inputs.
- Express route parameters are not URL-decoded, and a path is taken as its non-empty segments.
- Case mapping is ASCII only: `toLowerCase`, `toUpperCase` and the router's case-insensitive matching of non-ASCII letters are not modelled. No non-ASCII character lower-cases to a letter of "asc" or "desc", so `AdminController.Direction` decides the same as the store client.
- `parseFloat` of coordinates, ISO-8601 timestamps and `Number.toString` in the location picker are not interpreted: coordinates are the strings the form holds and time is a natural number.
- The badge tables are plain maps: a status or severity that names a built-in object property (such as "constructor") is not modelled.
- React rendering, asynchronous interleaving of page state updates (stale closures, concurrent refreshes) and the `submitting` flag seen during a request are not modelled. `HandleStatusUpdate` returns whether a refresh follows, and `Submit` ends with `submitting` false.
- The classifier's model loading, text vectoriser, image preprocessing and tensor prediction are not modelled. The text index, image arg-max index and confidence are inputs to `Predictor.PredictFinal`.
- The classifier service requires an image, so image-less reports reach the fallback in practice. The HTTP call to it is the `classifier` function parameter.
- The location picker, the map, and the other pages and components are not modelled.
- Static image files are a set of known paths given to `Server.Serve`; the banner, health and 404 bodies are not modelled (`Server.Page`).
- Server.Serve: the reply bodies of handlers are stated by the store methods' contracts rather than repeated in its own.
- Routes.Dispatch: states only that every request gets a chain; what each chain is comes from the route lemmas.
