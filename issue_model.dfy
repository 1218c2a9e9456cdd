/** The one persistent entity of the backend, an issue document, and the
    request and reply shapes its handlers exchange. */
module IssueModel {
  import opened Base

  const OPEN := "open"
  const IN_PROGRESS := "in-progress"
  const RESOLVED := "resolved"

  /** The three statuses both status-update handlers accept. */
  predicate IsAllowedStatus(s: string) {
    s == OPEN || s == IN_PROGRESS || s == RESOLVED
  }

  /** The coordinates as submitted. `parseFloat` is not interpreted, so a
      location keeps the text it was parsed from. */
  datatype Location = Location(lat: string, lng: string)

  /** The stored fields of an issue. Status, severity and category are
      plain strings because the collection may hold documents written by
      other paths; timestamps are instants of an increasing clock. */
  datatype Issue = Issue(
    userId: string,
    title: string,
    description: string,
    address: Option<string>,
    location: Location,
    imageUrl: Option<string>,
    status: string,
    severity: string,
    aiConfidence: real,
    createdAt: nat,
    updatedAt: nat,
    updatedBy: Option<string>,
    category: Option<string>)

  /** An issue as the list and read endpoints return it: `{ id, ...data }`. */
  datatype Doc = Doc(id: string, data: Issue)

  /** The file multer saved for the `image` part of a submission. */
  datatype UploadedFile = UploadedFile(path: string)

  /** The form fields a handler destructures from `req.body`. */
  datatype Body = Body(
    title: Option<string>,
    description: Option<string>,
    latitude: Option<string>,
    longitude: Option<string>,
    address: Option<string>,
    status: Option<string>)

  /** The query-string parameters the admin listing reads. */
  datatype Query = Query(
    status: Option<string>,
    severity: Option<string>,
    category: Option<string>,
    sortBy: Option<string>,
    order: Option<string>)

  /** A JSON reply: a body with its HTTP status, or `{ error }` with its status. */
  datatype Reply<+T> = Ok(code: nat, body: T) | Fail(code: nat, error: string)

  const INTERNAL_ERROR := "Internal Server Error"
}
