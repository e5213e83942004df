/** `Event`: a campus food event, with its memberwise initialiser, the
    document decoder, `status` and `asDictionary`. */
module Events {

  import opened Wrappers
  import opened Document
  import opened EventStatus

  datatype Event = Event(
    id: string,
    title: string,
    description: string,
    campusId: string,
    organizerId: string,
    organizerName: string,
    location: string,
    startTime: int,
    endTime: int,
    imageUrl: Option<string>,
    isApproved: bool,
    createdAt: int,
    updatedAt: int)

  /** `status`: the event's place on the time line at `now`. */
  function StatusAt(e: Event, now: int): (st: Status)
    ensures st == Upcoming <==> now < e.startTime
    ensures st == Live <==> e.startTime <= now <= e.endTime
    ensures st == Expired <==> e.startTime <= now && e.endTime < now
  {
    Calculate(e.startTime, e.endTime, now)
  }

  /** The memberwise initialiser. `id` stands for the generated UUID string;
      both timestamps default to the current time `now`. */
  function NewEvent(
    id: string,
    title: string,
    description: string,
    campusId: string,
    organizerId: string,
    organizerName: string,
    location: string,
    startTime: int,
    endTime: int,
    now: int,
    imageUrl: Option<string> := None,
    isApproved: bool := false): (e: Event)
    ensures e.id == id && e.title == title && e.description == description
    ensures e.campusId == campusId && e.organizerId == organizerId && e.organizerName == organizerName
    ensures e.location == location && e.startTime == startTime && e.endTime == endTime
    ensures e.imageUrl == imageUrl && e.isApproved == isApproved
    ensures e.createdAt == now && e.updatedAt == now
  {
    Event(id, title, description, campusId, organizerId, organizerName, location,
          startTime, endTime, imageUrl, isApproved, now, now)
  }

  /** Without the optional arguments, a new event is unapproved and has no
      image. */
  lemma NewEventDefaults(id: string, title: string, description: string, campusId: string,
                         organizerId: string, organizerName: string, location: string,
                         startTime: int, endTime: int, now: int)
    ensures !NewEvent(id, title, description, campusId, organizerId, organizerName, location,
                      startTime, endTime, now).isApproved
    ensures NewEvent(id, title, description, campusId, organizerId, organizerName, location,
                     startTime, endTime, now).imageUrl.None?
  {
  }

  /** The documents `init(from:)` accepts: the seven strings are present,
      and `imageUrl` and `isApproved` are absent, null or of their type. */
  ghost predicate EventDecodable(d: Doc)
  {
    && Key.id in d && d[Key.id].Str?
    && Key.title in d && d[Key.title].Str?
    && Key.description in d && d[Key.description].Str?
    && Key.campusId in d && d[Key.campusId].Str?
    && Key.organizerId in d && d[Key.organizerId].Str?
    && Key.organizerName in d && d[Key.organizerName].Str?
    && Key.location in d && d[Key.location].Str?
    && OptionalStringOk(d, Key.imageUrl)
    && OptionalBoolOk(d, Key.isApproved)
  }

  /** `e` is the event `init(from:)` builds from `d` at `now`: the strings as
      stored, the image when stored, approval false unless stored, and each
      timestamp as stored or else `now`. */
  ghost predicate ReadsEvent(d: Doc, now: int, e: Event)
  {
    && ReadsString(d, Key.id, e.id)
    && ReadsString(d, Key.title, e.title)
    && ReadsString(d, Key.description, e.description)
    && ReadsString(d, Key.campusId, e.campusId)
    && ReadsString(d, Key.organizerId, e.organizerId)
    && ReadsString(d, Key.organizerName, e.organizerName)
    && ReadsString(d, Key.location, e.location)
    && ReadsOptionalString(d, Key.imageUrl, e.imageUrl)
    && ReadsFlag(d, Key.isApproved, false, e.isApproved)
    && ReadsTime(d, Key.startTime, now, e.startTime)
    && ReadsTime(d, Key.endTime, now, e.endTime)
    && ReadsTime(d, Key.createdAt, now, e.createdAt)
    && ReadsTime(d, Key.updatedAt, now, e.updatedAt)
  }

  /** `init(from:)`. It fails exactly when a required string is missing or
      a field has the wrong type; otherwise it reads the event as
      `ReadsEvent` describes. */
  function DecodeEvent(d: Doc, now: int): (r: Result<Event, DecodeError>)
    ensures r.Success? <==> EventDecodable(d)
    ensures r.Success? ==> ReadsEvent(d, now, r.value)
    ensures Key.id !in d ==> r == Failure(KeyNotFound(Key.id))
  {
    var id :- GetString(d, Key.id);
    var title :- GetString(d, Key.title);
    var description :- GetString(d, Key.description);
    var campusId :- GetString(d, Key.campusId);
    var organizerId :- GetString(d, Key.organizerId);
    var organizerName :- GetString(d, Key.organizerName);
    var location :- GetString(d, Key.location);
    var imageUrl :- GetStringIfPresent(d, Key.imageUrl);
    var isApproved :- GetBoolIfPresent(d, Key.isApproved);
    Success(Event(id, title, description, campusId, organizerId, organizerName, location,
                  TimestampOr(d, Key.startTime, now), TimestampOr(d, Key.endTime, now),
                  imageUrl, isApproved.GetOr(false),
                  TimestampOr(d, Key.createdAt, now), TimestampOr(d, Key.updatedAt, now)))
  }

  /** The twelve keys every event dictionary holds. */
  const EventFixedKeys: set<Key> :=
    {Key.id, Key.title, Key.description, Key.campusId, Key.organizerId, Key.organizerName,
     Key.location, Key.startTime, Key.endTime, Key.isApproved, Key.createdAt, Key.updatedAt}

  /** The fixed part of the dictionary. */
  function FixedEntries(e: Event): Doc
  {
    map[Key.id := Str(e.id), Key.title := Str(e.title), Key.description := Str(e.description),
        Key.campusId := Str(e.campusId), Key.organizerId := Str(e.organizerId),
        Key.organizerName := Str(e.organizerName), Key.location := Str(e.location),
        Key.startTime := Time(e.startTime), Key.endTime := Time(e.endTime),
        Key.isApproved := Bool(e.isApproved),
        Key.createdAt := Time(e.createdAt), Key.updatedAt := Time(e.updatedAt)]
  }

  /** `asDictionary`, and equally the document `encode(to:)` writes: the
      twelve fixed fields, plus `imageUrl` only when present. */
  function EventAsDictionary(e: Event): (d: Doc)
    ensures d.Keys <= EventFixedKeys + {Key.imageUrl}
    ensures Key.imageUrl in d <==> e.imageUrl.Some?
    ensures e.imageUrl.Some? ==> d[Key.imageUrl] == Str(e.imageUrl.value)
  {
    var d := FixedEntries(e);
    if e.imageUrl.Some? then d[Key.imageUrl := Str(e.imageUrl.value)] else d
  }

  /** `d` carries the twelve fixed fields of `e`, times as timestamps. */
  ghost predicate HoldsFixedFields(d: Doc, e: Event)
  {
    && EventFixedKeys <= d.Keys
    && d[Key.id] == Str(e.id)
    && d[Key.title] == Str(e.title)
    && d[Key.description] == Str(e.description)
    && d[Key.campusId] == Str(e.campusId)
    && d[Key.organizerId] == Str(e.organizerId)
    && d[Key.organizerName] == Str(e.organizerName)
    && d[Key.location] == Str(e.location)
    && d[Key.startTime] == Time(e.startTime)
    && d[Key.endTime] == Time(e.endTime)
    && d[Key.isApproved] == Bool(e.isApproved)
    && d[Key.createdAt] == Time(e.createdAt)
    && d[Key.updatedAt] == Time(e.updatedAt)
  }

  /** The dictionary always holds the twelve fixed fields; in particular
      `id` maps to the event's id. */
  lemma DictionaryHoldsFixedFields(e: Event)
    ensures HoldsFixedFields(EventAsDictionary(e), e)
  {
    var d := FixedEntries(e);
    assert HoldsFixedFields(d, e);
    if e.imageUrl.Some? {
      assert HoldsFixedFields(d[Key.imageUrl := Str(e.imageUrl.value)], e);
    }
  }

  /** The decoder reads back any document holding the fields of `e`, with
      `imageUrl` present exactly when `e` has one. */
  lemma {:induction false} DecodeFromFields(d: Doc, e: Event, now: int)
    requires HoldsFixedFields(d, e)
    requires Key.imageUrl in d <==> e.imageUrl.Some?
    requires e.imageUrl.Some? ==> d[Key.imageUrl] == Str(e.imageUrl.value)
    ensures DecodeEvent(d, now) == Success(e)
  {
    assert GetString(d, Key.id) == Success(e.id);
    assert GetString(d, Key.title) == Success(e.title);
    assert GetString(d, Key.description) == Success(e.description);
    assert GetString(d, Key.campusId) == Success(e.campusId);
    assert GetString(d, Key.organizerId) == Success(e.organizerId);
    assert GetString(d, Key.organizerName) == Success(e.organizerName);
    assert GetString(d, Key.location) == Success(e.location);
    assert GetStringIfPresent(d, Key.imageUrl) == Success(e.imageUrl);
    assert GetBoolIfPresent(d, Key.isApproved) == Success(Some(e.isApproved));
  }

  /** Decoding what `asDictionary` wrote gives back the same event. */
  lemma {:induction false} EventRoundTrip(e: Event, now: int)
    ensures DecodeEvent(EventAsDictionary(e), now) == Success(e)
  {
    DictionaryHoldsFixedFields(e);
    DecodeFromFields(EventAsDictionary(e), e, now);
  }
}
