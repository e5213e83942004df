/** `CampusSelectionManager`: the campus a user has picked, kept in three
    places — the selected id, the cached `Campus` record and the persisted
    preference — and propagated to the signed-in user's profile. The campus
    lookup, the signed-in uid and the outcome of the remote write are
    inputs; remote writes are recorded in an append-only log. */
module CampusSelection {

  import opened Wrappers
  import opened RepositoryErrors
  import opened Campuses
  import opened Profiles

  /** A remote `updateCampusId(uid:campusId:)` call. */
  datatype CampusWrite = CampusWrite(uid: string, campusId: string)

  datatype Manager = Manager(
    selectedId: Option<string>,
    selected: Option<Campus>,
    preference: Option<string>,
    writes: seq<CampusWrite>)

  /** The persisted preference always mirrors the selected id. */
  predicate Valid(m: Manager)
  {
    m.preference == m.selectedId
  }

  /** `loadSelectedCampus()`, run by the initialiser: adopts the saved
      preference. The detail fetch it starts is detached; its completion is
      `FetchCampusDetails`, applied whenever it arrives. */
  function Load(saved: Option<string>): (m: Manager)
    ensures Valid(m)
    ensures m.selectedId == saved && m.selected == None && m.writes == []
  {
    Manager(saved, None, saved, [])
  }

  /** `fetchCampusDetails(campusId:)`: a found campus replaces the cached
      record; a failed lookup leaves it alone. */
  function FetchCampusDetails(m: Manager, lookup: Result<Campus, RepositoryError>): (r: Manager)
    ensures lookup.Success? ==> r == m.(selected := Some(lookup.value))
    ensures lookup.Failure? ==> r == m
    ensures Valid(m) ==> Valid(r)
  {
    match lookup
    case Success(c) => m.(selected := Some(c))
    case Failure(_) => m
  }

  /** Records the remote write when a user is signed in; the write's own
      outcome becomes the call's outcome. */
  function WriteCampusId(m: Manager, uid: Option<string>, campusId: string,
                         write: Outcome<RepositoryError>): (r: (Manager, Outcome<RepositoryError>))
    ensures uid.None? ==> r == (m, Pass)
    ensures uid.Some? ==> r.0 == m.(writes := m.writes + [CampusWrite(uid.value, campusId)])
    ensures uid.Some? ==> r.1 == write
  {
    match uid
    case None => (m, Pass)
    case Some(u) => (m.(writes := m.writes + [CampusWrite(u, campusId)]), write)
  }

  /** `selectCampus(_ campusId:)`: the id and the preference change at once;
      the cached record changes only if the lookup finds the campus; then,
      when signed in, the id is written to the profile. A failed write does
      not undo the local change. */
  function SelectCampusId(m: Manager, campusId: string, lookup: Result<Campus, RepositoryError>,
                          uid: Option<string>, write: Outcome<RepositoryError>)
    : (r: (Manager, Outcome<RepositoryError>))
    ensures Valid(r.0)
    ensures r.0.selectedId == Some(campusId)
    ensures lookup.Success? ==> r.0.selected == Some(lookup.value)
    ensures lookup.Failure? ==> r.0.selected == m.selected
    ensures uid.None? ==> r.0.writes == m.writes && r.1 == Pass
    ensures uid.Some? ==> r.0.writes == m.writes + [CampusWrite(uid.value, campusId)] && r.1 == write
  {
    var m := m.(selectedId := Some(campusId), preference := Some(campusId));
    var m := FetchCampusDetails(m, lookup);
    WriteCampusId(m, uid, campusId, write)
  }

  /** `selectCampus(_ campus:)`: id, cached record and preference are set
      from the campus before the write, which a failure does not undo. */
  function SelectCampus(m: Manager, campus: Campus, uid: Option<string>,
                        write: Outcome<RepositoryError>): (r: (Manager, Outcome<RepositoryError>))
    ensures Valid(r.0)
    ensures r.0.selectedId == Some(campus.id) && r.0.selected == Some(campus)
    ensures uid.None? ==> r.0.writes == m.writes && r.1 == Pass
    ensures uid.Some? ==> r.0.writes == m.writes + [CampusWrite(uid.value, campus.id)] && r.1 == write
  {
    var m := m.(selectedId := Some(campus.id), selected := Some(campus), preference := Some(campus.id));
    WriteCampusId(m, uid, campus.id, write)
  }

  /** `clearSelection()`: id, cached record and preference are cleared and,
      when signed in, the empty string is written as the profile's campus. */
  function ClearSelection(m: Manager, uid: Option<string>, write: Outcome<RepositoryError>)
    : (r: (Manager, Outcome<RepositoryError>))
    ensures Valid(r.0)
    ensures r.0.selectedId == None && r.0.selected == None
    ensures uid.None? ==> r.0.writes == m.writes && r.1 == Pass
    ensures uid.Some? ==> r.0.writes == m.writes + [CampusWrite(uid.value, "")] && r.1 == write
  {
    var m := m.(selectedId := None, selected := None, preference := None);
    WriteCampusId(m, uid, "", write)
  }

  /** `syncWithUserProfile(_:)`: a profile campus that differs from the
      selection, the empty string included, replaces the id and the
      preference and triggers a lookup; no profile campus, or the same one,
      changes nothing. It never writes remotely. */
  function SyncWithUserProfile(m: Manager, p: UserProfile, lookup: Result<Campus, RepositoryError>)
    : (r: Manager)
    ensures p.campusId.None? || p.campusId == m.selectedId ==> r == m
    ensures p.campusId.Some? && p.campusId != m.selectedId ==>
              r.selectedId == p.campusId && r.preference == p.campusId
    ensures p.campusId.Some? && p.campusId != m.selectedId ==>
              r.selected == (if lookup.Success? then Some(lookup.value) else m.selected)
    ensures r.writes == m.writes
    ensures Valid(m) ==> Valid(r)
  {
    if p.campusId.Some? && p.campusId != m.selectedId then
      var m := m.(selectedId := p.campusId, preference := p.campusId);
      FetchCampusDetails(m, lookup)
    else m
  }

  /** `hasCampusSelected()`. */
  function HasCampusSelected(m: Manager): (b: bool)
    ensures b <==> m.selectedId.Some?
  {
    m.selectedId != None
  }

  /** A remote write is made only for a signed-in user, and never more than
      one per call. */
  lemma WritesOnlyWhenSignedIn(m: Manager, campusId: string, campus: Campus,
                               lookup: Result<Campus, RepositoryError>,
                               write: Outcome<RepositoryError>)
    ensures SelectCampusId(m, campusId, lookup, None, write).0.writes == m.writes
    ensures SelectCampus(m, campus, None, write).0.writes == m.writes
    ensures ClearSelection(m, None, write).0.writes == m.writes
    ensures |SelectCampusId(m, campusId, lookup, Some("u"), write).0.writes| == |m.writes| + 1
  {
  }

  /** If the lookup fails, the cached record may belong to a different
      campus than the selected id. */
  lemma FailedLookupLeavesStaleCampus(prior: Campus, campusId: string, e: RepositoryError)
    requires prior.id != campusId
    ensures var m := Manager(Some(prior.id), Some(prior), Some(prior.id), []);
            var r := SelectCampusId(m, campusId, Failure(e), None, Pass).0;
            r.selectedId == Some(campusId) && r.selected == Some(prior) && r.selected.value.id != campusId
  {
  }

  /** Clearing writes the empty string to the profile; once that profile is
      synced back, the empty string counts as a selected campus. */
  lemma ClearThenSyncSelectsEmptyId(m: Manager, uid: string, p: UserProfile,
                                    lookup: Result<Campus, RepositoryError>)
    requires p.campusId == Some("")
    ensures var c := ClearSelection(m, Some(uid), Pass).0;
            && c.writes[|c.writes| - 1] == CampusWrite(uid, "")
            && !HasCampusSelected(c)
            && HasCampusSelected(SyncWithUserProfile(c, p, lookup))
            && SyncWithUserProfile(c, p, lookup).selectedId == Some("")
  {
  }

  /** Syncing twice with the same profile and lookup is the same as once. */
  lemma SyncIdempotent(m: Manager, p: UserProfile, lookup: Result<Campus, RepositoryError>)
    ensures var once := SyncWithUserProfile(m, p, lookup);
            SyncWithUserProfile(once, p, lookup) == once
  {
  }
}
