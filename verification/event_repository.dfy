/** `EventRepository`, the Firestore-backed event store, reduced to what
    its queries select, how they order it, and how its reads turn the
    documents found into events. The `events` collection is
    the sequence of events the app has written (each stored as its
    `asDictionary`); the query's time is `now`; the outcome of each network
    call is an input. */
module EventQueries {

  import opened Wrappers
  import opened Seqs
  import opened Sorting
  import opened Document
  import opened RepositoryErrors
  import opened EventStatus
  import opened Events

  // ------------------------------------------------------- status predicates

  /** The field conditions a status filter adds to a query. */
  function StatusFilter(st: Status, e: Event, now: int): bool
  {
    match st
    case Upcoming => e.startTime > now
    case Live => e.startTime <= now && e.endTime >= now
    case Expired => e.endTime < now
  }

  /** The upcoming and live conditions select exactly the events of that
      status; the expired one does too, for events that do not end before
      they start. */
  lemma StatusFiltersAgree(e: Event, now: int)
    ensures StatusFilter(Upcoming, e, now) <==> StatusAt(e, now) == Upcoming
    ensures StatusFilter(Live, e, now) <==> StatusAt(e, now) == Live
    ensures e.startTime <= e.endTime ==> (StatusFilter(Expired, e, now) <==> StatusAt(e, now) == Expired)
  {
  }

  /** An event that ends before it starts passes both the upcoming and the
      expired condition while it is upcoming. */
  lemma ExpiredFilterDisagrees()
    ensures var e := Event("e", "t", "d", "c", "o", "n", "l", 10, 5, None, true, 0, 0);
            StatusFilter(Upcoming, e, 7) && StatusFilter(Expired, e, 7) && StatusAt(e, 7) == Upcoming
  {
  }

  // ------------------------------------------------------------- the queries

  /** The conditions of `listenToEvents(campusId:status:completion:)`: the
      campus when one is given, approval always, and the status filter. */
  function ListenMatches(campusId: Option<string>, status: Option<Status>, now: int): Event -> bool
  {
    (e: Event) => (campusId.None? || e.campusId == campusId.value) && e.isApproved
         && (status.None? || StatusFilter(status.value, e, now))
  }

  function StartKey(e: Event): int
  {
    e.startTime
  }

  /** The documents a start-time ordered query returns. Firestore breaks
      ties by document id; the model leaves their order open. */
  function QueryByStart(collection: seq<Event>, campusId: Option<string>, status: Option<Status>, now: int)
    : (r: seq<Event>)
    ensures SortedBy(r, StartKey)
    ensures multiset(r) == multiset(Filter(collection, ListenMatches(campusId, status, now)))
  {
    SortBy(Filter(collection, ListenMatches(campusId, status, now)), StartKey)
  }

  /** A query returns exactly the matching events, however many times
      each is stored, ordered by start time. */
  lemma QueryByStartSelects(collection: seq<Event>, campusId: Option<string>, status: Option<Status>,
                            now: int, e: Event)
    ensures e in QueryByStart(collection, campusId, status, now) <==>
              e in collection && (campusId.None? || e.campusId == campusId.value) && e.isApproved
              && (status.None? || StatusFilter(status.value, e, now))
  {
    var f := Filter(collection, ListenMatches(campusId, status, now));
    assert e in multiset(QueryByStart(collection, campusId, status, now)) <==> e in multiset(f);
  }

  // ---------------------------------------------------------------- reading

  /** How every read of the repository turns a document into an event:
      `JSONSerialization.data(withJSONObject:)`, then
      `JSONDecoder().decode(Event.self, from:)`. A document the serialiser
      refuses yields no event; one it accepts holds no timestamp, so the
      decoder's timestamp reads all fall back to `now`. */
  function ReadEvent(d: Doc, now: int): (r: Option<Event>)
    ensures r.Some? <==> JsonSafe(d) && EventDecodable(d)
    ensures r.Some? ==> ReadsEvent(d, now, r.value)
  {
    if !JsonSafe(d) then None
    else match DecodeEvent(d, now)
      case Success(e) => Some(e)
      case Failure(_) => None
  }

  /** An event read through JSON always carries the time of the read in
      all four of its timestamps. */
  lemma JsonReadStampsNow(d: Doc, now: int)
    requires ReadEvent(d, now).Some?
    ensures ReadEvent(d, now).value.startTime == now && ReadEvent(d, now).value.endTime == now
    ensures ReadEvent(d, now).value.createdAt == now && ReadEvent(d, now).value.updatedAt == now
  {
    assert Key.startTime in d ==> JsonValue(d[Key.startTime]);
    assert Key.endTime in d ==> JsonValue(d[Key.endTime]);
    assert Key.createdAt in d ==> JsonValue(d[Key.createdAt]);
    assert Key.updatedAt in d ==> JsonValue(d[Key.updatedAt]);
  }

  /** The document the app writes for an event stores its times as
      timestamps, so reading it back yields no event. */
  lemma AppWrittenEventUnreadable(e: Event, now: int)
    ensures ReadEvent(EventAsDictionary(e), now).None?
  {
    DictionaryHoldsFixedFields(e);
    assert !JsonValue(EventAsDictionary(e)[Key.startTime]);
  }

  /** `try documents.compactMap { … }` over the read: every document is read
      in turn and one that cannot be read fails the whole batch. */
  function DecodeAll(docs: seq<Doc>, now: int): (r: Option<seq<Event>>)
    ensures r.Some? <==> forall i :: 0 <= i < |docs| ==> ReadEvent(docs[i], now).Some?
    ensures r.Some? ==> |r.value| == |docs|
    ensures r.Some? ==> forall i :: 0 <= i < |docs| ==> Some(r.value[i]) == ReadEvent(docs[i], now)
  {
    if |docs| == 0 then Some([])
    else
      var e :- ReadEvent(docs[0], now);
      var rest :- DecodeAll(docs[1..], now);
      Some([e] + rest)
  }

  /** The documents the app writes for a list of events. */
  function Stored(s: seq<Event>): (docs: seq<Doc>)
    ensures |docs| == |s|
    ensures forall i :: 0 <= i < |s| ==> docs[i] == EventAsDictionary(s[i])
  {
    if |s| == 0 then [] else [EventAsDictionary(s[0])] + Stored(s[1..])
  }

  /** A batch of documents the app wrote decodes only when it is empty. */
  lemma StoredBatchReadsOnlyWhenEmpty(s: seq<Event>, now: int)
    ensures DecodeAll(Stored(s), now).Some? <==> s == []
    ensures DecodeAll(Stored(s), now).Some? ==> DecodeAll(Stored(s), now).value == []
  {
    if |s| > 0 {
      AppWrittenEventUnreadable(s[0], now);
    }
  }

  /** `getEventsByCampus(campusId:status:)`. A failed fetch is wrapped as a
      `firestoreError`; so is a batch that cannot be read, whose error
      description is `decodeMessage`. Since the app's own documents cannot
      be read, only a query that matches nothing succeeds. */
  function GetEventsByCampus(collection: seq<Event>, campusId: string, status: Option<Status>, now: int,
                             fetch: Outcome<string>, decodeMessage: string)
    : (r: Result<seq<Event>, RepositoryError>)
    ensures fetch.Fail? ==> r == Failure(FirestoreError(fetch.error))
    ensures fetch.Pass? ==> (r.Success? <==> QueryByStart(collection, Some(campusId), status, now) == [])
    ensures fetch.Pass? && r.Failure? ==> r.error == FirestoreError(decodeMessage)
    ensures r.Success? ==> r.value == []
  {
    match fetch
    case Fail(message) => Failure(FirestoreError(message))
    case Pass =>
      var found := QueryByStart(collection, Some(campusId), status, now);
      StoredBatchReadsOnlyWhenEmpty(found, now);
      match DecodeAll(Stored(found), now)
      case Some(events) => Success(events)
      case None => Failure(FirestoreError(decodeMessage))
  }

  /** A snapshot delivered to `listenToEvents(campusId:status:completion:)`:
      a listener error as `firestoreError`, a batch that cannot be read as
      `decodingError`, otherwise the events read. Only a snapshot that
      matches nothing is delivered as a success. */
  function ListenSnapshot(collection: seq<Event>, campusId: Option<string>, status: Option<Status>,
                          now: int, snapshot: Outcome<string>)
    : (r: Result<seq<Event>, RepositoryError>)
    ensures snapshot.Fail? ==> r == Failure(FirestoreError(snapshot.error))
    ensures snapshot.Pass? ==> (r.Success? <==> QueryByStart(collection, campusId, status, now) == [])
    ensures snapshot.Pass? && r.Failure? ==> r.error == DecodingError
    ensures r.Success? ==> r.value == []
  {
    match snapshot
    case Fail(message) => Failure(FirestoreError(message))
    case Pass =>
      var found := QueryByStart(collection, campusId, status, now);
      StoredBatchReadsOnlyWhenEmpty(found, now);
      match DecodeAll(Stored(found), now)
      case Some(events) => Success(events)
      case None => Failure(DecodingError)
  }

  /** Unlike the in-memory repository, the listener's query never matches
      an unapproved event, with or without a campus. */
  lemma ListenerOnlyApproved(collection: seq<Event>, campusId: Option<string>, status: Option<Status>,
                             now: int, e: Event)
    requires e in QueryByStart(collection, campusId, status, now)
    ensures e.isApproved
  {
    QueryByStartSelects(collection, campusId, status, now, e);
  }

  function NewestFirstKey(e: Event): int
  {
    -e.createdAt
  }

  /** The documents the organizer query returns: the organizer's events,
      approved or not, newest first. */
  function ByOrganizerNewestFirst(collection: seq<Event>, organizerId: string): (r: seq<Event>)
    ensures forall i, j :: 0 <= i < j < |r| ==> r[i].createdAt >= r[j].createdAt
    ensures multiset(r) == multiset(Filter(collection, (e: Event) => e.organizerId == organizerId))
  {
    var r := SortBy(Filter(collection, (e: Event) => e.organizerId == organizerId), NewestFirstKey);
    assert forall i, j :: 0 <= i < j < |r| ==> NewestFirstKey(r[i]) <= NewestFirstKey(r[j]);
    r
  }

  /** `getEventsByOrganizer(organizerId:)`: like the campus query, it
      succeeds only when the organizer has no events. */
  function GetEventsByOrganizer(collection: seq<Event>, organizerId: string, now: int,
                                fetch: Outcome<string>, decodeMessage: string)
    : (r: Result<seq<Event>, RepositoryError>)
    ensures fetch.Fail? ==> r == Failure(FirestoreError(fetch.error))
    ensures fetch.Pass? ==> (r.Success? <==> ByOrganizerNewestFirst(collection, organizerId) == [])
    ensures fetch.Pass? && r.Failure? ==> r.error == FirestoreError(decodeMessage)
    ensures r.Success? ==> r.value == []
  {
    match fetch
    case Fail(message) => Failure(FirestoreError(message))
    case Pass =>
      var found := ByOrganizerNewestFirst(collection, organizerId);
      StoredBatchReadsOnlyWhenEmpty(found, now);
      match DecodeAll(Stored(found), now)
      case Some(events) => Success(events)
      case None => Failure(FirestoreError(decodeMessage))
  }

  // ------------------------------------------------------------ single events

  /** What a `getEvent(id:)` attempt can run into. */
  datatype Fetched = Missing | Found(doc: Doc) | NetworkError(message: string)

  /** `getEvent(id:)`. A missing document is `documentNotFound`; a network
      error and a document that cannot be read (whose error description is
      `decodeMessage`) are wrapped as `firestoreError`. */
  function GetEvent(fetched: Fetched, now: int, decodeMessage: string): (r: Result<Event, RepositoryError>)
    ensures r.Failure? ==> r.error == DocumentNotFound || r.error.FirestoreError?
    ensures r == Failure(DocumentNotFound) <==> fetched.Missing?
    ensures fetched.NetworkError? ==> r == Failure(FirestoreError(fetched.message))
    ensures fetched.Found? ==> (r.Success? <==> ReadEvent(fetched.doc, now).Some?)
    ensures fetched.Found? && r.Success? ==> Some(r.value) == ReadEvent(fetched.doc, now)
    ensures fetched.Found? && r.Failure? ==> r.error == FirestoreError(decodeMessage)
  {
    match fetched
    case Missing => Failure(DocumentNotFound)
    case NetworkError(message) => Failure(FirestoreError(message))
    case Found(doc) =>
      match ReadEvent(doc, now)
      case Some(e) => Success(e)
      case None => Failure(FirestoreError(decodeMessage))
  }

  /** An event the app stored cannot be fetched back: `getEvent(id:)` reports
      the read failure instead. */
  lemma StoredEventUnreadable(e: Event, now: int, decodeMessage: string)
    ensures GetEvent(Found(EventAsDictionary(e)), now, decodeMessage) == Failure(FirestoreError(decodeMessage))
  {
    AppWrittenEventUnreadable(e, now);
  }

  /** The event `updateEvent(_:)` writes: the same event stamped `now`. */
  function StampForUpdate(e: Event, now: int): (u: Event)
    ensures u.updatedAt == now
    ensures u.(updatedAt := e.updatedAt) == e
  {
    e.(updatedAt := now)
  }

  /** The merge `updateEvent(_:)` performs over the event's stored document
      changes `updatedAt` only. */
  lemma UpdateChangesOnlyTimestamp(e: Event, now: int)
    ensures EventAsDictionary(StampForUpdate(e, now)) == EventAsDictionary(e)[Key.updatedAt := Time(now)]
  {
    var u := StampForUpdate(e, now);
    assert FixedEntries(u) == FixedEntries(e)[Key.updatedAt := Time(now)];
  }

  /** `approveEvent(id:)`: the two fields merged into the stored document. */
  function ApproveDocument(d: Doc, now: int): (r: Doc)
    ensures r.Keys == d.Keys + {Key.isApproved, Key.updatedAt}
    ensures r[Key.isApproved] == Bool(true) && r[Key.updatedAt] == Time(now)
    ensures forall k :: k in d && k != Key.isApproved && k != Key.updatedAt ==> r[k] == d[k]
  {
    d[Key.isApproved := Bool(true)][Key.updatedAt := Time(now)]
  }

  /** Writing two other keys commutes with writing `k`. */
  lemma UpdatesCommute(d: Doc, k: Key, v: Value, k1: Key, v1: Value, k2: Key, v2: Value)
    requires k != k1 && k != k2
    ensures d[k := v][k1 := v1][k2 := v2] == d[k1 := v1][k2 := v2][k := v]
  {
  }

  /** Approving a stored event stores the approved event stamped `now`;
      the in-memory repository sets the flag without the stamp. */
  lemma ApproveStoresApprovedEvent(e: Event, now: int)
    ensures ApproveDocument(EventAsDictionary(e), now)
         == EventAsDictionary(e.(isApproved := true, updatedAt := now))
  {
    var approved := e.(isApproved := true);
    var a := approved.(updatedAt := now);
    assert FixedEntries(approved) == FixedEntries(e)[Key.isApproved := Bool(true)];
    assert FixedEntries(a) == FixedEntries(approved)[Key.updatedAt := Time(now)];
    if e.imageUrl.Some? {
      UpdatesCommute(FixedEntries(e), Key.imageUrl, Str(e.imageUrl.value),
                     Key.isApproved, Bool(true), Key.updatedAt, Time(now));
    }
  }
}
