/** `MockEventRepository`, `MockCampusRepository` and `MockPromoRepository`:
    the generic store instantiated for each record, plus each repository's
    own queries and flag updates. Listener queries deliver their snapshot
    at once and ignore `shouldThrowError`. */
module MockRepositories {

  import opened Wrappers
  import opened Seqs
  import opened RepositoryErrors
  import opened EventStatus
  import opened Events
  import opened Campuses
  import opened Promos
  import opened MockStore

  // ----------------------------------------------------------------- events

  function EventKey(e: Event): string
  {
    e.id
  }

  function InCampusApproved(campusId: string): Event -> bool
  {
    (e: Event) => e.campusId == campusId && e.isApproved
  }

  function WithStatus(status: Status, now: int): Event -> bool
  {
    e => StatusAt(e, now) == status
  }

  /** The optional status filter both event queries apply last. */
  function FilterStatus(s: seq<Event>, status: Option<Status>, now: int): (r: seq<Event>)
    ensures forall e :: e in r <==> e in s && (status.None? || StatusAt(e, now) == status.value)
  {
    if status.Some? then Filter(s, WithStatus(status.value, now)) else s
  }

  /** `getEventsByCampus(campusId:status:)` at `now`: the approved events of
      the campus, with the given status if one is given. */
  function GetEventsByCampus(st: Store<Event>, campusId: string, status: Option<Status>, now: int)
    : (r: Result<seq<Event>, RepositoryError>)
    ensures st.shouldThrowError ==> r == Failure(MockFailure)
    ensures !st.shouldThrowError ==>
              r.Success? && forall e :: e in r.value <==>
                e in st.items && e.campusId == campusId && e.isApproved
                && (status.None? || StatusAt(e, now) == status.value)
  {
    if st.shouldThrowError then Failure(MockFailure)
    else Success(FilterStatus(Filter(st.items, InCampusApproved(campusId)), status, now))
  }

  /** The two filters in a row are one filter over the store, so the result
      keeps store order. */
  lemma ByCampusIsOneFilter(st: Store<Event>, campusId: string, s: Status, now: int)
    requires !st.shouldThrowError
    ensures GetEventsByCampus(st, campusId, Some(s), now).value
         == Filter(st.items, (e: Event) => e.campusId == campusId && e.isApproved && StatusAt(e, now) == s)
  {
    var p, q := InCampusApproved(campusId), WithStatus(s, now);
    FilterFilter(st.items, p, q);
    FilterCongruent(st.items, Both(p, q),
                    (e: Event) => e.campusId == campusId && e.isApproved && StatusAt(e, now) == s);
  }

  /** `getEventsByOrganizer(organizerId:)`: approved or not. */
  function GetEventsByOrganizer(st: Store<Event>, organizerId: string): (r: Result<seq<Event>, RepositoryError>)
    ensures st.shouldThrowError ==> r == Failure(MockFailure)
    ensures !st.shouldThrowError ==>
              r.Success? && forall e :: e in r.value <==> e in st.items && e.organizerId == organizerId
  {
    Query(st, (e: Event) => e.organizerId == organizerId)
  }

  /** The snapshot `listenToEvents(campusId:status:completion:)` delivers:
      the campus and approval filter only when a campus is given, then the
      status filter. */
  function ListenToEvents(st: Store<Event>, campusId: Option<string>, status: Option<Status>, now: int)
    : (r: seq<Event>)
    ensures forall e :: e in r <==>
              e in st.items && (campusId.None? || (e.campusId == campusId.value && e.isApproved))
              && (status.None? || StatusAt(e, now) == status.value)
  {
    var s := if campusId.Some? then Filter(st.items, InCampusApproved(campusId.value)) else st.items;
    FilterStatus(s, status, now)
  }

  /** The listener delivers the same snapshot whether or not errors are
      switched on, and for a campus it agrees with `getEventsByCampus`. */
  lemma ListenerIgnoresErrorSwitch(st: Store<Event>, campusId: string, status: Option<Status>, now: int)
    ensures ListenToEvents(st.(shouldThrowError := true), Some(campusId), status, now)
         == ListenToEvents(st, Some(campusId), status, now)
    ensures !st.shouldThrowError ==>
              GetEventsByCampus(st, campusId, status, now) == Success(ListenToEvents(st, Some(campusId), status, now))
  {
  }

  /** Without a campus the listener delivers unapproved events too, which
      no campus query returns. */
  lemma NilCampusListensToUnapproved(e: Event, now: int)
    requires !e.isApproved
    ensures ListenToEvents(Store([e], false), None, None, now) == [e]
    ensures GetEventsByCampus(Store([e], false), e.campusId, None, now) == Success([])
  {
    assert Filter([e], InCampusApproved(e.campusId)) == [];
  }

  function Approved(e: Event): Event
  {
    e.(isApproved := true)
  }

  /** `approveEvent(id:)`. */
  function ApproveEvent(st: Store<Event>, id: string): (r: (Store<Event>, Outcome<RepositoryError>))
    ensures !st.shouldThrowError ==> r.1 == Pass && |r.0.items| == |st.items|
    ensures !st.shouldThrowError ==>
              forall i :: 0 <= i < |st.items| ==>
                r.0.items[i] == st.items[i].(isApproved := st.items[i].isApproved || IsFirst(st.items, HasId(EventKey, id), i))
    ensures st.shouldThrowError ==> r == (st, Fail(MockFailure))
  {
    Modify(st, EventKey, id, Approved)
  }

  // --------------------------------------------------------------- campuses

  /** `getAllCampuses()`. */
  function GetAllCampuses(st: Store<Campus>): (r: Result<seq<Campus>, RepositoryError>)
    ensures st.shouldThrowError <==> r.Failure?
    ensures r.Failure? ==> r.error == MockFailure
    ensures r.Success? ==> r.value == st.items
  {
    if st.shouldThrowError then Failure(MockFailure) else Success(st.items)
  }

  function IsActive(c: Campus): bool
  {
    c.isActive
  }

  /** `getActiveCampuses()`. */
  function GetActiveCampuses(st: Store<Campus>): (r: Result<seq<Campus>, RepositoryError>)
    ensures st.shouldThrowError ==> r == Failure(MockFailure)
    ensures !st.shouldThrowError ==> r.Success? && forall c :: c in r.value <==> c in st.items && c.isActive
  {
    Query(st, IsActive)
  }

  /** The snapshot `listenToActiveCampuses(completion:)` delivers; it is
      the active campuses whatever the switch says. */
  function ListenToActiveCampuses(st: Store<Campus>): (r: seq<Campus>)
    ensures forall c :: c in r <==> c in st.items && c.isActive
    ensures !st.shouldThrowError ==> GetActiveCampuses(st) == Success(r)
  {
    Filter(st.items, IsActive)
  }

  // ----------------------------------------------------------------- promos

  function PromoKey(p: PromoPost): string
  {
    p.id
  }

  function PromoInCampus(campusId: string): PromoPost -> bool
  {
    (p: PromoPost) => p.campusId == campusId && p.isApproved
  }

  /** `getPromosByCampus(campusId:)`: the approved promos of the campus. */
  function GetPromosByCampus(st: Store<PromoPost>, campusId: string): (r: Result<seq<PromoPost>, RepositoryError>)
    ensures st.shouldThrowError ==> r == Failure(MockFailure)
    ensures !st.shouldThrowError ==>
              r.Success? && forall p :: p in r.value <==> p in st.items && p.campusId == campusId && p.isApproved
  {
    Query(st, PromoInCampus(campusId))
  }

  /** `getPromosByOrganizer(organizerId:)`. */
  function GetPromosByOrganizer(st: Store<PromoPost>, organizerId: string)
    : (r: Result<seq<PromoPost>, RepositoryError>)
    ensures st.shouldThrowError ==> r == Failure(MockFailure)
    ensures !st.shouldThrowError ==>
              r.Success? && forall p :: p in r.value <==> p in st.items && p.organizerId == organizerId
  {
    Query(st, (p: PromoPost) => p.organizerId == organizerId)
  }

  /** The snapshot `listenToPromos(campusId:completion:)` delivers. */
  function ListenToPromos(st: Store<PromoPost>, campusId: string): (r: seq<PromoPost>)
    ensures forall p :: p in r <==> p in st.items && p.campusId == campusId && p.isApproved
    ensures !st.shouldThrowError ==> GetPromosByCampus(st, campusId) == Success(r)
  {
    Filter(st.items, PromoInCampus(campusId))
  }

  function PromoApproved(p: PromoPost): PromoPost
  {
    p.(isApproved := true)
  }

  /** `approvePromo(id:)`. */
  function ApprovePromo(st: Store<PromoPost>, id: string): (r: (Store<PromoPost>, Outcome<RepositoryError>))
    ensures !st.shouldThrowError ==> r.1 == Pass && |r.0.items| == |st.items|
    ensures !st.shouldThrowError ==>
              forall i :: 0 <= i < |st.items| ==>
                r.0.items[i] == st.items[i].(isApproved := st.items[i].isApproved || IsFirst(st.items, HasId(PromoKey, id), i))
    ensures st.shouldThrowError ==> r == (st, Fail(MockFailure))
  {
    Modify(st, PromoKey, id, PromoApproved)
  }

  /** `pinPromo(id:isPinned:)`: only the first match's pin changes, to the
      given value. */
  function PinPromo(st: Store<PromoPost>, id: string, isPinned: bool)
    : (r: (Store<PromoPost>, Outcome<RepositoryError>))
    ensures !st.shouldThrowError ==> r.1 == Pass && |r.0.items| == |st.items|
    ensures !st.shouldThrowError ==>
              forall i :: 0 <= i < |st.items| ==>
                r.0.items[i] == st.items[i].(isPinned := if IsFirst(st.items, HasId(PromoKey, id), i) then isPinned else st.items[i].isPinned)
    ensures st.shouldThrowError ==> r == (st, Fail(MockFailure))
  {
    Modify(st, PromoKey, id, (p: PromoPost) => p.(isPinned := isPinned))
  }

  /** Pinning then unpinning restores the store when the promo was not
      pinned before. */
  lemma PinThenUnpinRestores(st: Store<PromoPost>, id: string, i: int)
    requires !st.shouldThrowError && IsFirst(st.items, HasId(PromoKey, id), i) && !st.items[i].isPinned
    ensures PinPromo(PinPromo(st, id, true).0, id, false).0 == st
  {
    var pin := (p: PromoPost) => p.(isPinned := true);
    var once := Modify(st, PromoKey, id, pin).0;
    ModifyKeepsFirst(st, PromoKey, id, pin, id);
    var twice := PinPromo(once, id, false).0;
    forall k | 0 <= k < |st.items|
      ensures twice.items[k] == st.items[k]
    {
      if IsFirst(st.items, HasId(PromoKey, id), k) {
        FirstIsUnique(st.items, HasId(PromoKey, id), i, k);
      }
    }
  }
}
