/** `OrganizerHomeViewModel`: an organizer's events split by status, and
    the confirm-then-delete flow. Repository and storage outcomes are
    inputs. */
module OrganizerHome {

  import opened Wrappers
  import opened Seqs
  import opened EventStatus
  import opened Events

  datatype Home = Home(
    events: seq<Event>,
    isLoading: bool,
    errorMessage: Option<string>,
    showDeleteConfirmation: bool,
    eventToDelete: Option<Event>)

  function HasStatus(st: Status, now: int): Event -> bool
  {
    e => StatusAt(e, now) == st
  }

  /** `liveEvents`, `upcomingEvents` and `expiredEvents` at `now`. */
  function EventsWithStatus(h: Home, st: Status, now: int): (r: seq<Event>)
    ensures forall e :: e in r <==> e in h.events && StatusAt(e, now) == st
  {
    Filter(h.events, HasStatus(st, now))
  }

  /** The three lists split the events: each event lands in exactly one,
      as often as it occurs. */
  lemma StatusListsPartition(s: seq<Event>, now: int)
    ensures multiset(Filter(s, HasStatus(Live, now)))
          + multiset(Filter(s, HasStatus(Upcoming, now)))
          + multiset(Filter(s, HasStatus(Expired, now))) == multiset(s)
  {
    FilterThreeWay(s, HasStatus(Live, now), HasStatus(Upcoming, now), HasStatus(Expired, now));
  }

  /** The same, for the view model's lists. */
  lemma {:induction false} HomeListsPartition(h: Home, now: int)
    ensures multiset(EventsWithStatus(h, Live, now)) + multiset(EventsWithStatus(h, Upcoming, now))
          + multiset(EventsWithStatus(h, Expired, now)) == multiset(h.events)
  {
    StatusListsPartition(h.events, now);
  }

  /** `loadEvents()` with the outcome of `getEventsByOrganizer`: the fetched
      events replace the list, or the message is set and the list kept. */
  function LoadEvents(h: Home, fetched: Result<seq<Event>, string>): (r: Home)
    ensures !r.isLoading
    ensures fetched.Success? ==> r.events == fetched.value && r.errorMessage.None?
    ensures fetched.Failure? ==> r.events == h.events && r.errorMessage == Some(fetched.error)
    ensures r.eventToDelete == h.eventToDelete && r.showDeleteConfirmation == h.showDeleteConfirmation
  {
    match fetched
    case Success(events) => h.(events := events, isLoading := false, errorMessage := None)
    case Failure(message) => h.(isLoading := false, errorMessage := Some(message))
  }

  /** `confirmDelete(_:)`. */
  function ConfirmDelete(h: Home, e: Event): (r: Home)
    ensures r.eventToDelete == Some(e) && r.showDeleteConfirmation
    ensures r.events == h.events
  {
    h.(eventToDelete := Some(e), showDeleteConfirmation := true)
  }

  /** `cancelDelete()`. */
  function CancelDelete(h: Home): (r: Home)
    ensures r.eventToDelete.None? && !r.showDeleteConfirmation
    ensures r.events == h.events
  {
    h.(eventToDelete := None, showDeleteConfirmation := false)
  }

  /** The storage and repository calls a deletion makes. */
  datatype DeleteCall = DeleteImage(eventId: string) | DeleteEventDoc(eventId: string)

  /** `deleteEvent()`. With nothing marked for deletion, nothing happens.
      Otherwise the image, if any, is deleted first, and its failure is
      ignored; then the event document is deleted. On success every event
      with that id leaves the list and the mark is cleared; on failure the
      list is kept and the message set. `deleted` is the repository call's
      outcome. */
  function DeleteEvent(h: Home, deleted: Outcome<string>): (r: (Home, seq<DeleteCall>))
    ensures h.eventToDelete.None? ==> r == (h, [])
    ensures h.eventToDelete.Some? ==> !r.0.isLoading && |r.1| >= 1
    ensures h.eventToDelete.Some? ==>
              r.1[|r.1| - 1] == DeleteEventDoc(h.eventToDelete.value.id)
              && (DeleteImage(h.eventToDelete.value.id) in r.1 <==> h.eventToDelete.value.imageUrl.Some?)
    ensures h.eventToDelete.Some? && deleted.Pass? ==>
              (forall e :: e in r.0.events <==> e in h.events && e.id != h.eventToDelete.value.id)
              && r.0.eventToDelete.None? && r.0.errorMessage.None?
    ensures h.eventToDelete.Some? && deleted.Fail? ==>
              r.0.events == h.events && r.0.errorMessage == Some(deleted.error)
              && r.0.eventToDelete == h.eventToDelete
  {
    match h.eventToDelete
    case None => (h, [])
    case Some(e) =>
      var calls := (if e.imageUrl.Some? then [DeleteImage(e.id)] else []) + [DeleteEventDoc(e.id)];
      match deleted
      case Pass =>
        (h.(events := Filter(h.events, (x: Event) => x.id != e.id), eventToDelete := None,
            isLoading := false, errorMessage := None), calls)
      case Fail(message) =>
        (h.(isLoading := false, errorMessage := Some(message)), calls)
  }

  /** Deleting keeps the order of the remaining events: deleting from a list
      made of two parts deletes from each part in place. */
  lemma {:induction false} DeleteKeepsOrder(h: Home, a: seq<Event>, b: seq<Event>)
    requires h.eventToDelete.Some? && h.events == a + b
    ensures var id := h.eventToDelete.value.id;
            DeleteEvent(h, Pass).0.events
            == Filter(a, (x: Event) => x.id != id) + Filter(b, (x: Event) => x.id != id)
  {
    var id := h.eventToDelete.value.id;
    var p := (x: Event) => x.id != id;
    FilterAppend(a, b, p);
    assert DeleteEvent(h, Pass).0.events == Filter(a + b, p);
  }
}
