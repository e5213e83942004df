/** `OrganizerEventFormViewModel`: the create/edit form for an event, its
    field validation and the event it builds on save. The image upload and
    the repository write are inputs (their outcomes); the clock is `now`. */
module EventForm {

  import opened Wrappers
  import opened Text
  import opened Events

  datatype FormMode = Create | Edit(event: Event)

  /** `isEditMode`. */
  function IsEditMode(mode: FormMode): (b: bool)
    ensures b <==> EventId(mode).Some?
  {
    mode.Edit?
  }

  /** `eventId`: the id of the event being edited, if any. */
  function EventId(mode: FormMode): (r: Option<string>)
    ensures r.Some? <==> mode.Edit?
    ensures mode.Edit? ==> r.value == mode.event.id
  {
    match mode
    case Create => None
    case Edit(e) => Some(e.id)
  }

  /** The editable fields. */
  datatype Fields = Fields(title: string, description: string, location: string,
                           startDate: int, endDate: int)

  /** The four per-field error messages. */
  datatype Errors = Errors(titleError: Option<string>, descriptionError: Option<string>,
                           locationError: Option<string>, dateError: Option<string>)

  const NoErrors: Errors := Errors(None, None, None, None)

  /** The form's published state. */
  datatype Form = Form(
    fields: Fields,
    existingImageUrl: Option<string>,
    errors: Errors,
    isLoading: bool,
    errorMessage: Option<string>,
    showSuccess: bool)

  /** The initial form: empty text and a start one hour and an end two
      hours from `now`, or, when editing, the event's own values
      (`loadEventData`). */
  function InitialForm(mode: FormMode, now: int): (f: Form)
    ensures f.errors == NoErrors && !f.isLoading && f.errorMessage.None? && !f.showSuccess
    ensures mode.Create? ==> f.fields == Fields("", "", "", now + 3600, now + 7200)
    ensures mode.Create? ==> f.existingImageUrl.None?
    ensures mode.Edit? ==> f.fields == Fields(mode.event.title, mode.event.description, mode.event.location,
                                              mode.event.startTime, mode.event.endTime)
    ensures mode.Edit? ==> f.existingImageUrl == mode.event.imageUrl
  {
    match mode
    case Create => Form(Fields("", "", "", now + 3600, now + 7200), None, NoErrors, false, None, false)
    case Edit(e) =>
      Form(Fields(e.title, e.description, e.location, e.startTime, e.endTime), e.imageUrl,
           NoErrors, false, None, false)
  }

  /** A title is accepted when it is not blank and its untrimmed length is
      between 3 and 100. */
  predicate TitleOk(t: string)
  {
    Trim(t) != [] && 3 <= |t| <= 100
  }

  /** A description is accepted when it is not blank and its untrimmed
      length is between 10 and 500. */
  predicate DescriptionOk(d: string)
  {
    Trim(d) != [] && 10 <= |d| <= 500
  }

  /** A location is accepted when it is not blank and has at least three
      characters; there is no upper bound. */
  predicate LocationOk(l: string)
  {
    Trim(l) != [] && 3 <= |l|
  }

  /** The dates are accepted when the end is after the start and the start
      is no more than five minutes in the past. */
  predicate DatesOk(start: int, end: int, now: int)
  {
    start < end && start >= now - 300
  }

  function TitleError(t: string): (r: Option<string>)
    ensures r.None? <==> TitleOk(t)
    ensures Trim(t) == [] ==> r == Some("Title is required")
  {
    if Trim(t) == [] then Some("Title is required")
    else if |t| < 3 then Some("Title must be at least 3 characters")
    else if |t| > 100 then Some("Title must be less than 100 characters")
    else None
  }

  function DescriptionError(d: string): (r: Option<string>)
    ensures r.None? <==> DescriptionOk(d)
    ensures Trim(d) == [] ==> r == Some("Description is required")
  {
    if Trim(d) == [] then Some("Description is required")
    else if |d| < 10 then Some("Description must be at least 10 characters")
    else if |d| > 500 then Some("Description must be less than 500 characters")
    else None
  }

  function LocationError(l: string): (r: Option<string>)
    ensures r.None? <==> LocationOk(l)
    ensures Trim(l) == [] ==> r == Some("Location is required")
  {
    if Trim(l) == [] then Some("Location is required")
    else if |l| < 3 then Some("Location must be at least 3 characters")
    else None
  }

  /** The date check: a start in the past overwrites the ordering message. */
  function DateError(start: int, end: int, now: int): (r: Option<string>)
    ensures r.None? <==> DatesOk(start, end, now)
    ensures start < now - 300 ==> r == Some("Start time cannot be in the past")
    ensures start >= now - 300 && end <= start ==> r == Some("End time must be after start time")
  {
    var r := if end <= start then Some("End time must be after start time") else None;
    if start < now - 300 then Some("Start time cannot be in the past") else r
  }

  /** `validateForm()`: every error is recomputed from scratch, and the form
      is valid exactly when no error is left. */
  function Validate(f: Fields, now: int): (r: (Errors, bool))
    ensures r.1 <==> r.0 == NoErrors
    ensures r.1 <==> TitleOk(f.title) && DescriptionOk(f.description) && LocationOk(f.location)
                     && DatesOk(f.startDate, f.endDate, now)
  {
    var e := Errors(TitleError(f.title), DescriptionError(f.description),
                    LocationError(f.location), DateError(f.startDate, f.endDate, now));
    (e, e == NoErrors)
  }

  /** The event holds the form's trimmed text, its dates and the image. */
  predicate CarriesForm(e: Event, f: Fields, imageUrl: Option<string>)
  {
    && e.title == Trim(f.title) && e.description == Trim(f.description)
    && e.location == Trim(f.location)
    && e.startTime == f.startDate && e.endTime == f.endDate && e.imageUrl == imageUrl
  }

  /** A newly created event: unapproved, with the given identity, campus
      and organizer, stamped `now`. */
  predicate IsNewEvent(e: Event, id: string, campusId: string, organizerId: string,
                       organizerName: string, now: int)
  {
    && !e.isApproved && e.id == id && e.campusId == campusId
    && e.organizerId == organizerId && e.organizerName == organizerName
    && e.createdAt == now && e.updatedAt == now
  }

  /** `e` keeps the identity, ownership, approval and timestamps of
      `prior`. */
  predicate KeepsOrigin(e: Event, prior: Event)
  {
    && e.id == prior.id && e.campusId == prior.campusId
    && e.organizerId == prior.organizerId && e.organizerName == prior.organizerName
    && e.isApproved == prior.isApproved
    && e.createdAt == prior.createdAt && e.updatedAt == prior.updatedAt
  }

  /** The event a save builds. Creating: a new unapproved event with the
      trimmed text, the form's dates, the campus and organizer the form was
      opened with, stamped `now`. Editing: the existing event with only the
      three text fields, the two dates and the image changed. */
  function BuildEvent(mode: FormMode, f: Fields, imageUrl: Option<string>, newId: string,
                      campusId: string, organizerId: string, organizerName: string, now: int)
    : (e: Event)
    ensures CarriesForm(e, f, imageUrl)
    ensures mode.Create? ==> IsNewEvent(e, newId, campusId, organizerId, organizerName, now)
    ensures mode.Edit? ==> KeepsOrigin(e, mode.event)
  {
    match mode
    case Create =>
      NewEvent(newId, Trim(f.title), Trim(f.description), campusId, organizerId, organizerName,
               Trim(f.location), f.startDate, f.endDate, now, imageUrl, false)
    case Edit(existing) =>
      existing.(title := Trim(f.title), description := Trim(f.description),
                location := Trim(f.location), startTime := f.startDate, endTime := f.endDate,
                imageUrl := imageUrl)
  }

  /** The repository call a save makes. */
  datatype EventWrite = CreateEvent(event: Event) | UpdateEvent(event: Event)

  /** `saveEvent()`. An invalid form only shows its errors. Otherwise the
      image, if one was picked, is uploaded (its URL replacing the existing
      one), the event is built and written, and the outcome shows as success
      or as an error message; loading is over either way. `upload` is the
      upload's outcome when an image was picked; `newId` is the UUID a new
      event receives. */
  function SaveEvent(form: Form, mode: FormMode, campusId: string, organizerId: string,
                     organizerName: string, now: int, newId: string,
                     upload: Option<Result<string, string>>, write: Outcome<string>)
    : (r: (Form, Option<EventWrite>))
    ensures r.0.errors == Validate(form.fields, now).0
    ensures !Validate(form.fields, now).1 ==> r == (form.(errors := r.0.errors), None)
    ensures Validate(form.fields, now).1 ==> !r.0.isLoading
    ensures r.1.Some? <==> Validate(form.fields, now).1 && (upload.None? || upload.value.Success?)
    ensures r.1.Some? ==> (r.1.value.CreateEvent? <==> mode.Create?)
    ensures r.1.Some? ==>
              r.1.value.event == BuildEvent(mode, form.fields, ImageAfterUpload(form, upload),
                                            newId, campusId, organizerId, organizerName, now)
    ensures r.1.Some? ==> (r.0.showSuccess <==> write.Pass? || form.showSuccess)
    ensures r.1.Some? && write.Fail? ==> r.0.errorMessage == Some(write.error)
    ensures Validate(form.fields, now).1 && upload.Some? && upload.value.Failure? ==>
              r.1.None? && r.0.errorMessage == Some(upload.value.error) && r.0.showSuccess == form.showSuccess
  {
    var (errors, valid) := Validate(form.fields, now);
    var form := form.(errors := errors);
    if !valid then (form, None)
    else
      var form := form.(isLoading := true, errorMessage := None);
      if upload.Some? && upload.value.Failure? then
        (form.(isLoading := false, errorMessage := Some(upload.value.error)), None)
      else
        var e := BuildEvent(mode, form.fields, ImageAfterUpload(form, upload), newId, campusId, organizerId,
                            organizerName, now);
        var call := if mode.Create? then CreateEvent(e) else UpdateEvent(e);
        match write
        case Pass => (form.(showSuccess := true, isLoading := false), Some(call))
        case Fail(message) => (form.(isLoading := false, errorMessage := Some(message)), Some(call))
  }

  /** The image URL a save stores: the uploaded one when an image was
      picked, otherwise the event's existing one. */
  function ImageAfterUpload(form: Form, upload: Option<Result<string, string>>): (u: Option<string>)
    requires upload.None? || upload.value.Success?
    ensures upload.None? ==> u == form.existingImageUrl
    ensures upload.Some? ==> u == Some(upload.value.value)
  {
    if upload.Some? then Some(upload.value.value) else form.existingImageUrl
  }

  /** Length checks read the untrimmed title, so a title that passes may be
      saved shorter than three characters. */
  lemma PaddedTitlePassesButSavesShort()
    ensures TitleOk(" a ")
    ensures |Trim(" a ")| == 1
  {
    var padded, start, core := " a ", "a ", "a";
    assert padded[0] == ' ' && padded[1..] == start;
    assert start[0] == 'a' && !IsWhitespace('a');
    assert TrimStart(padded) == start;
    assert start[1] == ' ' && start[..1] == core;
    assert TrimEnd(core) == core;
  }

  /** Opening an event whose text is already trimmed and saving it
      unchanged, with no new image, rebuilds exactly that event, so the
      update `SaveEvent` writes is the event itself. */
  lemma {:induction false} EditWithoutChangesRebuildsSameEvent(
    e: Event, now: int, campusId: string, organizerId: string, organizerName: string,
    newId: string)
    requires Trim(e.title) == e.title && Trim(e.description) == e.description
    requires Trim(e.location) == e.location
    ensures var f := InitialForm(Edit(e), now);
            BuildEvent(Edit(e), f.fields, f.existingImageUrl, newId, campusId, organizerId,
                       organizerName, now) == e
  {
    var f := InitialForm(Edit(e), now);
    assert f.fields == Fields(e.title, e.description, e.location, e.startTime, e.endTime);
  }
}
