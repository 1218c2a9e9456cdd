/** The report page: the form's state, the client-side check before
    sending, the multipart payload and the reset after success. */
module ReportIssue {
  import opened Base
  import opened IssueModel
  import IssuesController

  /** A chosen image file, by name. */
  datatype Image = Image(name: string)

  datatype Form = Form(
    title: string,
    description: string,
    latitude: string,
    longitude: string,
    address: string,
    image: Option<Image>)

  const EMPTY_FORM := Form("", "", "", "", "", None)

  /** What the location picker hands back; the coordinates already in
      their string form. */
  datatype LocationData = LocationData(latitude: string, longitude: string, address: string)

  /** One `FormData.append`. */
  datatype Entry = TextEntry(name: string, value: string) | FileEntry(name: string, file: Image)

  /** The four fields a report needs are non-empty. */
  predicate CanSubmit(f: Form) {
    f.title != "" && f.description != "" && f.latitude != "" && f.longitude != ""
  }

  /** The address sent: the picked one, or "latitude, longitude". */
  function AddressToSend(f: Form): (r: string)
    ensures f.address != "" ==> r == f.address
    ensures f.address == "" ==> r == f.latitude + ", " + f.longitude
  {
    if f.address != "" then f.address else f.latitude + ", " + f.longitude
  }

  /** The entries of the request, in the order they are appended. */
  function Entries(f: Form): seq<Entry> {
    [TextEntry("title", f.title), TextEntry("description", f.description),
     TextEntry("latitude", f.latitude), TextEntry("longitude", f.longitude),
     TextEntry("address", AddressToSend(f))]
    + (if f.image.Some? then [FileEntry("image", f.image.value)] else [])
  }

  /** Builds the request body by successive appends. */
  method BuildFormData(f: Form) returns (entries: seq<Entry>)
    ensures entries == Entries(f)
  {
    entries := [];
    entries := entries + [TextEntry("title", f.title)];
    entries := entries + [TextEntry("description", f.description)];
    entries := entries + [TextEntry("latitude", f.latitude)];
    entries := entries + [TextEntry("longitude", f.longitude)];
    entries := entries + [TextEntry("address", AddressToSend(f))];
    if f.image.Some? {
      entries := entries + [FileEntry("image", f.image.value)];
    }
  }

  /** The value of the first text entry with that name. */
  function TextValue(entries: seq<Entry>, name: string): Option<string> {
    if entries == [] then None
    else if entries[0].TextEntry? && entries[0].name == name then Some(entries[0].value)
    else TextValue(entries[1..], name)
  }

  /** The body the server parses from the text entries. */
  function ParsedBody(entries: seq<Entry>): Body {
    Body(TextValue(entries, "title"), TextValue(entries, "description"), TextValue(entries, "latitude"),
         TextValue(entries, "longitude"), TextValue(entries, "address"), TextValue(entries, "status"))
  }

  /** The payload carries the four text fields, then the address to send
      (never empty), then the image exactly when one was chosen. */
  lemma EntriesShape(f: Form)
    ensures var e := Entries(f);
      && |e| == (if f.image.Some? then 6 else 5)
      && (forall i :: 0 <= i < 5 ==> e[i].TextEntry?)
      && (f.image.Some? ==> e[5] == FileEntry("image", f.image.value))
      && e[4] == TextEntry("address", AddressToSend(f))
      && AddressToSend(f) != ""
  {
  }

  /** A form the page lets through is one the server accepts: the body it
      parses carries the same four required fields, so it never answers
      "Missing required fields", and the picked or fallback address. */
  lemma SubmittedFormPassesServer(f: Form)
    requires CanSubmit(f)
    ensures var b := ParsedBody(Entries(f));
      && IssuesController.HasRequiredFields(b)
      && b.title == Some(f.title) && b.description == Some(f.description)
      && b.latitude == Some(f.latitude) && b.longitude == Some(f.longitude)
      && b.address == Some(AddressToSend(f))
  {
    var img: seq<Entry> := if f.image.Some? then [FileEntry("image", f.image.value)] else [];
    var t0, t1, t2, t3, t4 := TextEntry("title", f.title), TextEntry("description", f.description),
      TextEntry("latitude", f.latitude), TextEntry("longitude", f.longitude), TextEntry("address", AddressToSend(f));
    var e4 := [t4] + img;
    var e3 := [t3] + e4;
    var e2 := [t2] + e3;
    var e1 := [t1] + e2;
    var e := [t0] + e1;
    assert Entries(f) == e;
    FirstMatch(t0, e1);
    FirstMatch(t1, e2);
    FirstMatch(t2, e3);
    FirstMatch(t3, e4);
    FirstMatch(t4, img);
    SkipEntry(t0, e1, "description");
    SkipEntry(t0, e1, "latitude");
    SkipEntry(t1, e2, "latitude");
    SkipEntry(t0, e1, "longitude");
    SkipEntry(t1, e2, "longitude");
    SkipEntry(t2, e3, "longitude");
    SkipEntry(t0, e1, "address");
    SkipEntry(t1, e2, "address");
    SkipEntry(t2, e3, "address");
    SkipEntry(t3, e4, "address");
  }

  lemma FirstMatch(x: Entry, rest: seq<Entry>)
    requires x.TextEntry?
    ensures TextValue([x] + rest, x.name) == Some(x.value)
  {
  }

  lemma SkipEntry(x: Entry, rest: seq<Entry>, name: string)
    requires !(x.TextEntry? && x.name == name)
    ensures TextValue([x] + rest, name) == TextValue(rest, name)
  {
    assert ([x] + rest)[1..] == rest;
  }

  /** `handleLocationSelect`: coordinates and address from the picker,
      every other field kept. */
  function SelectLocation(f: Form, loc: LocationData): (r: Form)
    ensures r.latitude == loc.latitude && r.longitude == loc.longitude && r.address == loc.address
    ensures r.(latitude := f.latitude, longitude := f.longitude, address := f.address) == f
  {
    f.(latitude := loc.latitude, longitude := loc.longitude, address := loc.address)
  }

  /** The submit button is disabled while sending or until both
      coordinates are set. */
  predicate SubmitDisabled(submitting: bool, f: Form) {
    submitting || f.latitude == "" || f.longitude == ""
  }

  /** A form that passes the client check always has the button enabled
      when nothing is being sent; the button alone does not check the
      title or the description. */
  lemma EnabledButtonForValidForm(f: Form)
    ensures CanSubmit(f) ==> !SubmitDisabled(false, f)
    ensures !SubmitDisabled(false, f) <==> f.latitude != "" && f.longitude != ""
  {
  }

  /** How the submission ended: the token request rejected before
      anything was built, the server answered ok or not, or the request
      was sent and then the fetch or the reading of its reply threw. */
  datatype SubmitResult = TokenFailed | Accepted | Rejected(error: string) | RequestFailed

  class ReportPage {
    var form: Form
    var submitting: bool
    var preview: Option<string>

    constructor ()
      ensures form == EMPTY_FORM && !submitting && preview.None?
    {
      form := EMPTY_FORM;
      submitting := false;
      preview := None;
    }

    /** `handleImageChange`: a chosen file replaces the image and its
        preview; no file changes nothing. */
    method ChooseImage(file: Option<Image>, previewUrl: string)
      modifies this`form, this`preview
      ensures file.Some? ==> form == old(form).(image := file) && preview == Some(previewUrl)
      ensures file.None? ==> form == old(form) && preview == old(preview)
    {
      if file.Some? {
        form := form.(image := file);
        preview := Some(previewUrl);
      }
    }

    method PickLocation(loc: LocationData)
      modifies this`form
      ensures form == SelectLocation(old(form), loc)
    {
      form := SelectLocation(form, loc);
    }

    /** `handleSubmit`: nothing is sent for an incomplete form or when the
        token cannot be obtained; otherwise the payload is sent, an
        accepted report resets the form and the preview, and the page is
        not submitting afterwards. */
    method Submit(result: SubmitResult) returns (sent: Option<seq<Entry>>)
      modifies this
      ensures !CanSubmit(old(form)) ==>
        sent.None? && form == old(form) && preview == old(preview) && submitting == old(submitting)
      ensures CanSubmit(old(form)) ==> !submitting
      ensures CanSubmit(old(form)) && result == TokenFailed ==> sent.None?
      ensures CanSubmit(old(form)) && result != TokenFailed ==> sent == Some(Entries(old(form)))
      ensures CanSubmit(old(form)) && result == Accepted ==> form == EMPTY_FORM && preview.None?
      ensures CanSubmit(old(form)) && result != Accepted ==> form == old(form) && preview == old(preview)
    {
      if !CanSubmit(form) {
        return None;
      }
      submitting := true;
      if result == TokenFailed {
        submitting := false;
        return None;
      }
      var entries := BuildFormData(form);
      sent := Some(entries);
      if result == Accepted {
        form := EMPTY_FORM;
        preview := None;
      }
      submitting := false;
    }
  }
}
