/** `SessionViewModel`: which screen the app shows, driven by the
    authentication listener, the one-shot profile fetch, the live profile
    listener and sign-out. Every asynchronous callback is an explicit event
    applied in arrival order; a fetch result is applied whenever it arrives,
    with no check that its user is still the signed-in one. */
module Sessions {

  import opened Wrappers
  import opened Document
  import opened RepositoryErrors
  import opened Profiles

  datatype SessionState = SignedOut | Loading | StudentHome | OrganizerHome | OrganizerPendingApproval

  /** The observable state, plus the uid whose profile listener is
      registered (`None` once it has been removed). */
  datatype Session = Session(
    state: SessionState,
    profile: Option<UserProfile>,
    errorMessage: Option<string>,
    listener: Option<string>)

  /** A new view model shows the loading screen. */
  const Initial: Session := Session(Loading, None, None, None)

  /** The callbacks and calls the view model reacts to. */
  datatype SessionEvent =
      /** The auth listener fired, with the signed-in uid if any. */
    | AuthChanged(user: Option<string>)
      /** `getUserProfile(uid:)` for a signed-in user returned. */
    | FetchCompleted(uid: string, result: Result<UserProfile, RepositoryError>)
      /** The profile listener delivered a snapshot. */
    | ListenerDelivered(result: Result<UserProfile, RepositoryError>)
      /** `signOut()`, with the outcome of the auth sign-out (its error
          message on failure). */
    | SignOutCalled(outcome: Outcome<string>)

  /** `updateSessionState(for:)`: students go home whatever their approval
      flag; organizers go home only once approved. */
  function RouteFor(p: UserProfile): (st: SessionState)
    ensures st == StudentHome <==> p.userRole == Student
    ensures st == OrganizerHome <==> p.userRole == Organizer && p.isApproved
    ensures st == OrganizerPendingApproval <==> p.userRole == Organizer && !p.isApproved
  {
    match p.userRole
    case Student => StudentHome
    case Organizer => if p.isApproved then OrganizerHome else OrganizerPendingApproval
  }

  /** Applies one event. */
  function Step(s: Session, ev: SessionEvent): (t: Session)
    // auth listener
    ensures ev == AuthChanged(None) ==> t.state == SignedOut && t.profile == None
    ensures ev == AuthChanged(None) ==> t.listener == s.listener && t.errorMessage == s.errorMessage
    ensures ev.AuthChanged? && ev.user.Some? ==> t == s
    // profile fetch
    ensures ev.FetchCompleted? && ev.result.Success? ==>
              t.profile == Some(ev.result.value) && t.state == RouteFor(ev.result.value)
              && t.listener == Some(ev.uid) && t.errorMessage == s.errorMessage
    ensures ev.FetchCompleted? && ev.result == Failure(DocumentNotFound) ==>
              t == s.(state := SignedOut)
    ensures ev.FetchCompleted? && ev.result.Failure? && ev.result.error != DocumentNotFound ==>
              t == s.(state := SignedOut, errorMessage := Some(Describe(ev.result.error)))
    // profile listener
    ensures ev.ListenerDelivered? && s.listener.None? ==> t == s
    ensures ev.ListenerDelivered? && s.listener.Some? && ev.result.Success? ==>
              t == s.(profile := Some(ev.result.value), state := RouteFor(ev.result.value))
    ensures ev.ListenerDelivered? && s.listener.Some? && ev.result.Failure? ==>
              t == s.(errorMessage := Some(Describe(ev.result.error)))
    // sign-out
    ensures ev.SignOutCalled? ==> t.listener == None && t.profile == None
    ensures ev.SignOutCalled? && ev.outcome.Pass? ==> t.state == SignedOut && t.errorMessage == s.errorMessage
    ensures ev.SignOutCalled? && ev.outcome.Fail? ==>
              t.state == s.state && t.errorMessage == Some(ev.outcome.error)
  {
    match ev
    case AuthChanged(user) =>
      if user.None? then s.(profile := None, state := SignedOut) else s
    case FetchCompleted(uid, result) =>
      (match result
       case Success(p) => s.(profile := Some(p), state := RouteFor(p), listener := Some(uid))
       case Failure(DocumentNotFound) => s.(state := SignedOut)
       case Failure(e) => s.(errorMessage := Some(Describe(e)), state := SignedOut))
    case ListenerDelivered(result) =>
      if s.listener.None? then s
      else (match result
        case Success(p) => s.(profile := Some(p), state := RouteFor(p))
        case Failure(e) => s.(errorMessage := Some(Describe(e))))
    case SignOutCalled(outcome) =>
      var s := s.(listener := None, profile := None);
      match outcome
      case Pass => s.(state := SignedOut)
      case Fail(message) => s.(errorMessage := Some(message))
  }

  /** Applies a sequence of events in order. */
  function Run(s: Session, evs: seq<SessionEvent>): Session
    decreases |evs|
  {
    if evs == [] then s else Run(Step(s, evs[0]), evs[1..])
  }

  /** `createUserProfile(uid:email:role:)`: the session is left alone and
      the document written is that of a fresh profile, approved exactly for
      a student. `init(from:)` reads it back as that profile when handed its
      timestamp as a timestamp; `JSONSerialization`, through which
      `getUserProfile` reads, refuses it. */
  function CreateUserProfile(s: Session, uid: string, email: string, role: UserRole, now: int)
    : (r: (Session, Doc))
    ensures r.0 == s
    ensures DecodeProfile(r.1, now) == Success(NewProfile(uid, email, role, now))
    ensures Key.isApproved in r.1 && r.1[Key.isApproved] == Bool(role == Student)
    ensures Key.campusId !in r.1 && Key.socialLinks !in r.1
    ensures !JsonSafe(r.1)
  {
    var p := NewProfile(uid, email, role, now);
    ProfileRoundTrip(p, now);
    ProfileDictionaryRefusedByJson(p);
    DictionaryHoldsFixedFields(p);
    DictionaryHoldsOptionalFields(p);
    (s, ProfileAsDictionary(p))
  }

  /** A screen that shows a user's home or pending page has the profile it
      was derived from. */
  ghost predicate Consistent(s: Session)
  {
    s.state in {StudentHome, OrganizerHome, OrganizerPendingApproval} ==>
      s.profile.Some? && s.state == RouteFor(s.profile.value)
  }

  /** Every event except a failed sign-out keeps the screen consistent with
      the profile. */
  lemma StepKeepsConsistent(s: Session, ev: SessionEvent)
    requires Consistent(s)
    requires !(ev.SignOutCalled? && ev.outcome.Fail?)
    ensures Consistent(Step(s, ev))
  {
  }

  /** A failed sign-out clears the profile but keeps the home screen. */
  lemma FailedSignOutBreaksConsistency(p: UserProfile, message: string)
    ensures var s := Session(RouteFor(p), Some(p), None, Some(p.uid));
            Consistent(s) && !Consistent(Step(s, SignOutCalled(Fail(message))))
  {
  }

  /** From the initial state, any run without a failed sign-out keeps the
      screen consistent with the profile. */
  lemma {:induction false} RunKeepsConsistent(s: Session, evs: seq<SessionEvent>)
    requires Consistent(s)
    requires forall i :: 0 <= i < |evs| ==> !(evs[i].SignOutCalled? && evs[i].outcome.Fail?)
    ensures Consistent(Run(s, evs))
    decreases |evs|
  {
    if evs != [] {
      StepKeepsConsistent(s, evs[0]);
      RunKeepsConsistent(Step(s, evs[0]), evs[1..]);
    }
  }

  /** The initial state is consistent, so every such run from it is. */
  lemma InitialConsistent()
    ensures Consistent(Initial)
  {
  }

  /** A successful sign-out twice is the same as once. */
  lemma SignOutIdempotent(s: Session)
    ensures Step(Step(s, SignOutCalled(Pass)), SignOutCalled(Pass)) == Step(s, SignOutCalled(Pass))
  {
  }

  /** An organizer awaiting approval moves to the organizer home as soon as
      the listener delivers the approved profile. */
  lemma ApprovalReachesOrganizerHome(uid: string, p: UserProfile)
    requires p.userRole == Organizer && !p.isApproved
    ensures var s := Step(Initial, FetchCompleted(uid, Success(p)));
            s.state == OrganizerPendingApproval
            && Step(s, ListenerDelivered(Success(p.(isApproved := true)))).state == OrganizerHome
  {
  }

  /** With no identity check, a fetch that completes after the user signed
      out still opens the home screen. */
  lemma LateFetchReopensHome(uid: string, p: UserProfile)
    requires p.userRole == Student
    ensures Run(Initial, [AuthChanged(None), FetchCompleted(uid, Success(p))]).state == StudentHome
  {
    var evs := [AuthChanged(None), FetchCompleted(uid, Success(p))];
    var s1 := Step(Initial, AuthChanged(None));
    assert evs[1..] == [FetchCompleted(uid, Success(p))];
    assert Run(s1, evs[1..]) == Run(Step(s1, evs[1]), []);
  }
}
