/** `ProfileViewModel`: loading a profile into the settings screen and the
    decision logic of its four actions — changing the campus, toggling
    notifications, asking for the organizer role and saving social links.
    Every remote call's outcome is an input, and the calls made are
    returned in order. */
module ProfileSettings {

  import opened Wrappers
  import opened Campuses
  import opened Profiles

  /** The notification permission the view model switches on. It has a
      `provisional` case, which `PushNotificationManager`'s own status type
      does not have. */
  datatype Permission = NotDetermined | Denied | Authorized | Provisional

  datatype Settings = Settings(
    profile: Option<UserProfile>,
    selectedCampus: Option<Campus>,
    notificationsEnabled: bool,
    socialLinks: SocialLinks,
    isLoading: bool,
    errorMessage: Option<string>,
    successMessage: Option<string>)

  /** The calls the actions make. */
  datatype Call =
    | SelectCampus(campus: Campus)
    | WriteCampusId(uid: string, campusId: string)
    | RequestPermission
    | WriteNotificationPreference(uid: string, enabled: bool)
    | EnablePush
    | DisablePush
    | RequestRoleUpgrade(uid: string)
    | WriteSocialLinks(uid: string, links: Option<SocialLinks>)
    | RefreshProfile
    | PostRefreshEvents

  /** `loadProfile(_:)`, without the detached campus loading. */
  function LoadProfile(s: Settings, p: UserProfile): (r: Settings)
    ensures r.profile == Some(p) && r.notificationsEnabled == p.notificationsEnabled
    ensures p.socialLinks.None? ==> r.socialLinks == NoLinks
    ensures p.socialLinks.Some? ==> r.socialLinks == p.socialLinks.value
  {
    s.(profile := Some(p), notificationsEnabled := p.notificationsEnabled,
       socialLinks := p.socialLinks.GetOr(NoLinks))
  }

  /** `updateCampus(_:)`. Without a profile nothing happens. The campus is
      selected through the selection manager, then written to the profile;
      only when both succeed is the campus shown as selected, the profile
      refreshed and the events told to reload. The first failure's message
      is shown. */
  function UpdateCampus(s: Settings, campus: Campus, select: Outcome<string>, write: Outcome<string>)
    : (r: (Settings, seq<Call>))
    ensures s.profile.None? ==> r == (s, [])
    ensures s.profile.Some? ==> !r.0.isLoading && |r.1| >= 1 && r.1[0] == SelectCampus(campus)
    ensures s.profile.Some? ==>
              (WriteCampusId(s.profile.value.uid, campus.id) in r.1 <==> select.Pass?)
    ensures s.profile.Some? && select.Pass? && write.Pass? ==>
              r.0.selectedCampus == Some(campus) && r.0.errorMessage.None?
              && r.0.successMessage == Some("Campus updated successfully")
              && r.1 == [SelectCampus(campus), WriteCampusId(s.profile.value.uid, campus.id),
                         RefreshProfile, PostRefreshEvents]
    ensures s.profile.Some? && (select.Fail? || write.Fail?) ==>
              r.0.selectedCampus == s.selectedCampus && r.0.errorMessage.Some?
              && PostRefreshEvents !in r.1
  {
    match s.profile
    case None => (s, [])
    case Some(p) =>
      var s := s.(isLoading := true, errorMessage := None);
      match select
      case Fail(e) =>
        (s.(errorMessage := Some("Failed to update campus: " + e), isLoading := false), [SelectCampus(campus)])
      case Pass =>
        var calls := [SelectCampus(campus), WriteCampusId(p.uid, campus.id)];
        match write
        case Fail(e) =>
          (s.(errorMessage := Some("Failed to update campus: " + e), isLoading := false), calls)
        case Pass =>
          (s.(selectedCampus := Some(campus), successMessage := Some("Campus updated successfully"),
              isLoading := false),
           calls + [RefreshProfile, PostRefreshEvents])
  }

  /** `updateNotificationPreference(uid:enabled:)`: after a successful
      write the push manager is switched on or off, the toggle shows
      `enabled` and the profile is refreshed; after a failed write only the
      message is set. */
  function UpdateNotificationPreference(s: Settings, uid: string, enabled: bool, write: Outcome<string>)
    : (r: (Settings, seq<Call>))
    ensures |r.1| >= 1 && r.1[0] == WriteNotificationPreference(uid, enabled)
    ensures write.Pass? ==> r.0.notificationsEnabled == enabled && r.0.errorMessage == s.errorMessage
    ensures write.Pass? ==> (EnablePush in r.1 <==> enabled) && (DisablePush in r.1 <==> !enabled)
    ensures write.Fail? ==> r.1 == [WriteNotificationPreference(uid, enabled)]
    ensures write.Fail? ==> r.0 == s.(errorMessage := r.0.errorMessage) && r.0.errorMessage.Some?
  {
    match write
    case Pass =>
      (s.(notificationsEnabled := enabled,
          successMessage := Some(if enabled then "Notifications enabled" else "Notifications disabled")),
       [WriteNotificationPreference(uid, enabled), if enabled then EnablePush else DisablePush, RefreshProfile])
    case Fail(e) =>
      (s.(errorMessage := Some("Failed to update notification preference: " + e)),
       [WriteNotificationPreference(uid, enabled)])
  }

  const DeniedMessage: string := "Notifications are disabled. Please enable them in Settings."

  /** `toggleNotifications()`. The target is the opposite of the toggle.
      Undetermined permission: switching off does nothing; switching on
      asks for permission and, if `granted`, stores the preference on, or
      else shows the toggle off. Denied: the toggle goes off with a message
      and nothing is written. Authorized or provisional: the target is
      stored. */
  function ToggleNotifications(s: Settings, permission: Permission, granted: bool, write: Outcome<string>)
    : (r: (Settings, seq<Call>))
    ensures s.profile.None? ==> r == (s, [])
    ensures s.profile.Some? && permission == NotDetermined && s.notificationsEnabled ==> r == (s, [])
    ensures s.profile.Some? && permission == NotDetermined && !s.notificationsEnabled ==>
              |r.1| >= 1 && r.1[0] == RequestPermission
    ensures s.profile.Some? && permission == NotDetermined && !s.notificationsEnabled && !granted ==>
              r == (s, [RequestPermission])
    ensures s.profile.Some? && permission == Denied ==>
              r == (s.(notificationsEnabled := false, errorMessage := Some(DeniedMessage)), [])
    ensures s.profile.Some? && (permission == Authorized || permission == Provisional) ==>
              r == UpdateNotificationPreference(s, s.profile.value.uid, !s.notificationsEnabled, write)
  {
    match s.profile
    case None => (s, [])
    case Some(p) =>
      var target := !s.notificationsEnabled;
      match permission
      case NotDetermined =>
        if !target then (s, [])
        else if granted then
          var (s', calls) := UpdateNotificationPreference(s, p.uid, true, write);
          (s', [RequestPermission] + calls)
        else (s.(notificationsEnabled := false), [RequestPermission])
      case Denied => (s.(notificationsEnabled := false, errorMessage := Some(DeniedMessage)), [])
      case Authorized => UpdateNotificationPreference(s, p.uid, target, write)
      case Provisional => UpdateNotificationPreference(s, p.uid, target, write)
  }

  /** With the permission granted and the writes succeeding, toggling
      flips the switch, and toggling twice restores it. */
  lemma {:induction false} ToggleTwiceRestores(s: Settings, permission: Permission, granted: bool)
    requires s.profile.Some? && (permission == Authorized || permission == Provisional)
    ensures var once := ToggleNotifications(s, permission, granted, Pass).0;
            once.notificationsEnabled == !s.notificationsEnabled
            && ToggleNotifications(once, permission, granted, Pass).0.notificationsEnabled
               == s.notificationsEnabled
  {
    var once := ToggleNotifications(s, permission, granted, Pass).0;
    assert once.profile == s.profile;
  }

  /** A denied permission never writes, and leaves the toggle off whatever
      it showed. */
  lemma DeniedNeverWrites(s: Settings, granted: bool, write: Outcome<string>)
    requires s.profile.Some?
    ensures var r := ToggleNotifications(s, Denied, granted, write);
            r.1 == [] && !r.0.notificationsEnabled
  {
  }

  const AlreadyOrganizerMessage: string := "You are already an organizer or have a pending request"

  /** `requestOrganizerRole()`. Without a profile nothing happens; a
      profile that is not a student's gets a message and no call; a
      student's request is sent and, on success, the profile refreshed. */
  function RequestOrganizerRole(s: Settings, write: Outcome<string>): (r: (Settings, seq<Call>))
    ensures s.profile.None? ==> r == (s, [])
    ensures s.profile.Some? && s.profile.value.userRole != Student ==>
              r == (s.(errorMessage := Some(AlreadyOrganizerMessage)), [])
    ensures s.profile.Some? && s.profile.value.userRole == Student ==>
              !r.0.isLoading && |r.1| >= 1 && r.1[0] == RequestRoleUpgrade(s.profile.value.uid)
              && (r.1 == [RequestRoleUpgrade(s.profile.value.uid), RefreshProfile] <==> write.Pass?)
              && (r.0.errorMessage.None? <==> write.Pass?)
  {
    match s.profile
    case None => (s, [])
    case Some(p) =>
      if p.userRole != Student then (s.(errorMessage := Some(AlreadyOrganizerMessage)), [])
      else
        var s := s.(isLoading := true, errorMessage := None);
        match write
        case Pass =>
          (s.(successMessage := Some("Organizer role request submitted for admin approval"),
              isLoading := false),
           [RequestRoleUpgrade(p.uid), RefreshProfile])
        case Fail(e) =>
          (s.(errorMessage := Some("Failed to request organizer role: " + e), isLoading := false),
           [RequestRoleUpgrade(p.uid)])
  }

  /** What `updateSocialLinks()` stores: nothing for empty links. */
  function LinksToSave(l: SocialLinks): (o: Option<SocialLinks>)
    ensures o.None? <==> l.IsEmpty()
    ensures o.Some? ==> o.value == l
  {
    if l.IsEmpty() then None else Some(l)
  }

  /** `updateSocialLinks()`: the links, or nil when empty, are written for
      the loaded profile. */
  function UpdateSocialLinks(s: Settings, write: Outcome<string>): (r: (Settings, seq<Call>))
    ensures s.profile.None? ==> r == (s, [])
    ensures s.profile.Some? ==>
              !r.0.isLoading && |r.1| >= 1 && r.1[0] == WriteSocialLinks(s.profile.value.uid, LinksToSave(s.socialLinks))
              && (r.0.errorMessage.None? <==> write.Pass?)
    ensures r.0.socialLinks == s.socialLinks && r.0.profile == s.profile
  {
    match s.profile
    case None => (s, [])
    case Some(p) =>
      var s := s.(isLoading := true, errorMessage := None);
      var call := WriteSocialLinks(p.uid, LinksToSave(s.socialLinks));
      match write
      case Pass =>
        (s.(successMessage := Some("Social links updated successfully"), isLoading := false),
         [call, RefreshProfile])
      case Fail(e) =>
        (s.(errorMessage := Some("Failed to update social links: " + e), isLoading := false), [call])
  }

  /** Saved links are never an empty object: whatever is written has at
      least one field. */
  lemma SavedLinksHaveAField(l: SocialLinks)
    requires LinksToSave(l).Some?
    ensures |LinksToObject(LinksToSave(l).value)| > 0
  {
    EmptyIffNoFields(l);
  }

  /** Without a loaded profile every action leaves the screen as it was and
      calls nothing. */
  lemma NoProfileNoAction(s: Settings, campus: Campus, permission: Permission, granted: bool,
                          o1: Outcome<string>, o2: Outcome<string>)
    requires s.profile.None?
    ensures UpdateCampus(s, campus, o1, o2) == (s, [])
    ensures ToggleNotifications(s, permission, granted, o1) == (s, [])
    ensures RequestOrganizerRole(s, o1) == (s, [])
    ensures UpdateSocialLinks(s, o1) == (s, [])
  {
  }
}
