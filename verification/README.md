# SnackRadar core in Dafny

SnackRadar is an iOS app that lists campus food events. Organizers post events and promos. Students see their campus's approved events, live and upcoming ones first. This project models the logic under the app's views and SDK calls as pure Dafny functions over immutable datatypes, and proves properties of that model.

What is modelled:

- **Time classification.** `EventStatus.calculate` and `Event.status`, and the status predicates the Firestore queries use instead.
- **Records and their documents.** `Event`, `PromoPost`, `Campus`, `UserProfile` and `SocialLinks`, each with:
  - its initialiser;
  - its document decoder with the defaults for missing fields;
  - its `asDictionary`, which also stands for `encode(to:)`, since both write the same keys.

  Each record has a round-trip lemma: `init(from:)`, given the document `asDictionary` wrote through a decoder that hands timestamps over as timestamps, gives the record back. These are facts about `init(from:)` alone. The app's repositories do not decode that way: every read in `EventRepository`, `UserRepository`, `PromoRepository` and `CampusRepository` passes the document through `JSONSerialization` before `JSONDecoder`, and `JSONSerialization` accepts no `Timestamp` value. Every dictionary the app writes holds one, so none can be read back: `EventQueries.AppWrittenEventUnreadable` for events, and `Profiles.ProfileDictionaryRefusedByJson`, `Promos.PromoDictionaryRefusedByJson` and `Campuses.CampusDictionaryRefusedByJson` for the others. A Firestore document is a `map<Key, Value>`. `Key` enumerates the coding keys, and `Document.KeyName` spells each key as the source does.
- **Two state machines.**
  - `SessionViewModel`: auth listener, profile fetch, profile listener and sign-out, as events applied in arrival order.
  - `CampusSelectionManager`: selected id, cached campus and persisted preference. Remote writes are kept as an append-only log.
- **View-model decision logic.**
  - Event form: validation and the event built on save.
  - Student feed: listener guard, expiry filter, remaining-time label and badge colours.
  - Organizer home: partition by status, and the delete flow.
  - Login: form validity, the primary-action and password-reset guards, and the nonce alphabet.
  - Profile settings: the campus, notification, role-upgrade and social-link actions.
- **Repositories.**
  - The in-memory mock repositories, as one generic sequence store (`MockStore`) plus the per-repository queries (`MockRepositories`).
  - The shape of the Firestore event repository's queries: filter, order, decoding and error wrapping (`EventQueries`).
- **Services.**
  - `AuthService` error classification and messages.
  - `PushNotificationManager`:
    - permission-status mapping;
    - APNs token hex encoding;
    - the push-token guard;
    - the local-notification payload and how a tap routes.

Conventions used throughout:

- Dates are `int` seconds, and the current time is an explicit `now` parameter.
- Latitude and longitude are opaque `real` values that are carried but never computed on.
- Remote calls are not performed. Their outcomes are parameters, usually `Outcome<string>`, `Result<…>` or `Option<…>`. The calls an action would make are returned as a sequence of call values, so "makes no call" is a statement about an empty sequence.

Two consequences of the code as written are worth naming:

- `SessionViewModel.swift:53-72` applies every profile fetch result as it arrives, including one that completes after its user has signed out. `Sessions.Step` does the same, and `Sessions.LateFetchReopensHome` shows the consequence.
- `Event.swift` declares no `foodType` field, although the form view model and the sample data set one. The model follows `Event.swift`.

## Model

| member | source | states |
|---|---|---|
| EventStatus.Calculate | SnackRadar/Models/EventStatus.swift:19-27 | upcoming iff now < start; live iff start <= now <= end; expired iff start <= now and end < now; never live when end < start |
| EventStatus.DisplayNamesDistinct | SnackRadar/Models/EventStatus.swift:8-17 | two statuses have the same display name iff they are the same status |
| EventStatus.StatusMonotone | SnackRadar/Models/EventStatus.swift:19-27 | as now increases the status only moves forward: upcoming, live, expired |
| EventStatus.LiveAtStart | SnackRadar/Models/EventStatus.swift:22-23 | an event with start <= end is live at its start instant |
| EventStatus.InstantEventIsLive | SnackRadar/Models/EventStatus.swift:22-23 | an event with start == end == now is live |
| Events.StatusAt | SnackRadar/Models/Event.swift:19-21 | the event's status at now is the three-way time classification of its own start and end |
| Events.NewEvent | SnackRadar/Models/Event.swift:39-67 | the memberwise initialiser copies every argument the model takes, and both timestamps take their default, the current time now |
| Events.NewEventDefaults | SnackRadar/Models/Event.swift:49-50 | without the optional arguments a new event is unapproved and has no image |
| Events.DecodeEvent | SnackRadar/Models/Event.swift:69-104 | succeeds iff the seven strings (id, title, description, campusId, organizerId, organizerName, location) are present and imageUrl and isApproved are absent, null or of their type; then every string is the stored one, imageUrl is the stored string or nil, isApproved the stored flag or false, and each of the four timestamps the stored one or now; a missing id reports that key |
| Events.EventAsDictionary | SnackRadar/Models/Event.swift:106-144 | the imageUrl key is present iff the event has an image, holding its value; no key outside the thirteen coding keys |
| Events.DictionaryHoldsFixedFields | SnackRadar/Models/Event.swift:123-144 | the dictionary always holds the twelve other keys with the event's values, id under the id key |
| Events.DecodeFromFields | SnackRadar/Models/Event.swift:69-104 | any document holding an event's fields, imageUrl present exactly when set, decodes to that event |
| Events.EventRoundTrip | SnackRadar/Models/Event.swift:69-144 | init(from:), given the dictionary of an event with its timestamps as timestamps, gives the event back |
| Promos.NewPromo | SnackRadar/Models/PromoPost.swift:31-55 | the initialiser copies every argument the model takes, and both timestamps take their default, the current time now |
| Promos.NewPromoDefaults | SnackRadar/Models/PromoPost.swift:39-40 | without the optional arguments a new promo is unapproved, unpinned and has no image |
| Promos.DecodePromo | SnackRadar/Models/PromoPost.swift:57-80 | succeeds iff the six strings (id, title, content, campusId, organizerId, organizerName) are present and imageUrl, isApproved and isPinned are absent, null or of their type; then the strings are the stored ones, imageUrl the stored string or nil, both flags the stored value or false, createdAt and updatedAt the stored timestamp or now |
| Promos.PromoAsDictionary | SnackRadar/Models/PromoPost.swift:82-116 | the imageUrl key is present iff the promo has an image, holding its value |
| Promos.DictionaryHoldsFixedFields | SnackRadar/Models/PromoPost.swift:97-116 | the dictionary always holds the ten other keys with the promo's values |
| Promos.DecodeFromFields | SnackRadar/Models/PromoPost.swift:57-80 | any document holding a promo's fields decodes to that promo |
| Promos.PromoRoundTrip | SnackRadar/Models/PromoPost.swift:57-116 | init(from:), given the dictionary of a promo with its timestamps as timestamps, gives the promo back |
| Promos.PromoDictionaryRefusedByJson | SnackRadar/Services/PromoRepository.swift:44-45 | the dictionary asDictionary writes for any promo holds a timestamp, so the JSON step of every promo read refuses it |
| Promos.JsonReadPromoStampsNow | SnackRadar/Services/PromoRepository.swift:44-45 | a promo that does come through the JSON step has the time of the read as createdAt and updatedAt |
| Campuses.NewCampus | SnackRadar/Models/Campus.swift:29-51 | the initialiser copies every argument the model takes, and createdAt takes its default, the current time now |
| Campuses.NewCampusDefaults | SnackRadar/Models/Campus.swift:38 | without the optional arguments a new campus is active and has no coordinates |
| Campuses.DecodeCampus | SnackRadar/Models/Campus.swift:53-70 | succeeds iff the six strings (id, name, address, city, state, zipCode) are present and the coordinates and isActive are absent, null or of their type; then the strings are the stored ones, each coordinate the stored number or nil, isActive the stored flag or true, createdAt the stored timestamp or now |
| Campuses.CampusAsDictionary | SnackRadar/Models/Campus.swift:72-107 | latitude, respectively longitude, is a key iff that coordinate is present |
| Campuses.DictionaryHoldsFixedFields | SnackRadar/Models/Campus.swift:86-107 | the dictionary always holds the eight fixed keys with the campus's values |
| Campuses.DictionaryHoldsCoordinates | SnackRadar/Models/Campus.swift:98-104 | each present coordinate is stored under its key |
| Campuses.DecodeFromFields | SnackRadar/Models/Campus.swift:53-70 | any document holding a campus's fields and coordinates decodes to that campus |
| Campuses.CampusRoundTrip | SnackRadar/Models/Campus.swift:53-107 | init(from:), given the dictionary of a campus with its timestamp as a timestamp, gives the campus back |
| Campuses.CampusDictionaryRefusedByJson | SnackRadar/Services/CampusRepository.swift:42-43 | the dictionary asDictionary writes for any campus holds a timestamp, so the JSON step of every campus read refuses it |
| Campuses.JsonReadCampusStampsNow | SnackRadar/Services/CampusRepository.swift:42-43 | a campus that does come through the JSON step has the time of the read as createdAt |
| Campuses.FullAddress | SnackRadar/Models/Campus.swift:109-111 | the address has the parts' total length plus five separator characters, starts with the street and ends with the zip code |
| Campuses.FullAddressParts | SnackRadar/Models/Campus.swift:109-111 | between the parts stand ", ", ", " and " ", with city and state in their places |
| Profiles.EmptinessOfLinks | SnackRadar/Models/SocialLinks.swift:10-12 | the default links are empty; setting any one field to any string, the empty string included, makes them non-empty |
| Profiles.EmptyIffNoFields | SnackRadar/Models/SocialLinks.swift:10-12 | links are empty iff their stored object has no keys |
| Profiles.LinksToObject | SnackRadar/Models/UserProfile.swift:95-101 | each link field is a key of the stored object iff it is present |
| Profiles.LinksRoundTrip | SnackRadar/Models/UserProfile.swift:42-60 | reading back the stored links object gives the links |
| Profiles.ParseRole | SnackRadar/Models/UserRole.swift:3-5 | a parsed role's raw string is the input |
| Profiles.RoleRawRoundTrip | SnackRadar/Models/UserRole.swift:3-5 | parsing a role's raw string gives the role |
| Profiles.NewProfile | SnackRadar/Models/UserProfile.swift:29-40 | isApproved holds iff the role is student, whatever is passed; every other argument the model takes is copied, and createdAt takes its default, the current time now |
| Profiles.NewProfileDefaults | SnackRadar/Models/UserProfile.swift:29 | the defaults are notifications off, no upgrade request, no campus, no links; the isApproved argument has no effect |
| Profiles.DecodeProfile | SnackRadar/Models/UserProfile.swift:42-60 | succeeds iff uid and email are strings, userRole is the raw value of a role, campusId and pushToken are absent, null or strings, the three flags absent, null or booleans, and socialLinks absent, null or an object whose links are absent, null or strings; then uid, email, role and the optionals are the stored ones (nil when not stored), isApproved the stored flag or true, the other flags the stored value or false, createdAt the stored timestamp or now, and the links those stored |
| Profiles.ProfileAsDictionary | SnackRadar/Models/UserProfile.swift:76-103 | no key outside the profile's coding keys |
| Profiles.DictionaryHoldsFixedFields | SnackRadar/Models/UserProfile.swift:77-85 | the dictionary always holds the seven fixed keys, the role as its raw string |
| Profiles.DictionaryHoldsOptionalFields | SnackRadar/Models/UserProfile.swift:87-101 | campusId, pushToken and socialLinks are keys iff present, holding their values |
| Profiles.DecodeFromFields | SnackRadar/Models/UserProfile.swift:42-60 | any document holding a profile's fixed and optional fields decodes to that profile |
| Profiles.ProfileRoundTrip | SnackRadar/Models/UserProfile.swift:42-103 | init(from:), given the dictionary of a profile with its timestamp as a timestamp, gives the profile back |
| Profiles.ProfileDictionaryRefusedByJson | SnackRadar/Services/UserRepository.swift:50-51 | the dictionary asDictionary writes for any profile holds a timestamp, so the JSON step of getUserProfile refuses it |
| Profiles.JsonReadProfileStampsNow | SnackRadar/Services/UserRepository.swift:50-51 | a profile that does come through the JSON step has the time of the read as createdAt |
| Profiles.DecodedOrganizerDefaultsToApproved | SnackRadar/Models/UserProfile.swift:29-58 | an organizer document without isApproved decodes as approved, while a new organizer profile is unapproved |
| RepositoryErrors.Describe | SnackRadar/Services/UserRepository.swift:10-21 | a Firestore error describes as its own message; a missing document as "User profile not found." |
| RepositoryErrors.FixedDescriptionsDistinct | SnackRadar/Services/UserRepository.swift:10-21 | the three fixed descriptions differ from each other |
| Sessions.RouteFor | SnackRadar/ViewModels/SessionViewModel.swift:92-99 | student home iff student; organizer home iff approved organizer; pending iff unapproved organizer |
| Sessions.Step | SnackRadar/ViewModels/SessionViewModel.swift:36-115 | the effect of each callback (no user: signed out with the profile cleared; fetch success: profile, route and listener for that uid; not found: signed out only; other errors: message and signed out; listener results only while registered; sign-out always drops listener and profile, reaching signed out only when the auth call succeeds) |
| Sessions.CreateUserProfile | SnackRadar/ViewModels/SessionViewModel.swift:101-104 | the session is unchanged; the written document stores isApproved as (role is student) and has no campus or links; init(from:), handed its timestamp as a timestamp, reads it as the new profile, but the JSON step of getUserProfile refuses it |
| Sessions.InitialConsistent | SnackRadar/ViewModels/SessionViewModel.swift:15-17 | the initial loading state satisfies the invariant that a home or pending screen shows the route of the held profile |
| Sessions.StepKeepsConsistent | SnackRadar/ViewModels/SessionViewModel.swift:36-115 | every event except a failed sign-out preserves that invariant |
| Sessions.FailedSignOutBreaksConsistency | SnackRadar/ViewModels/SessionViewModel.swift:106-115 | a failed sign-out leaves a home screen showing with no profile |
| Sessions.RunKeepsConsistent | SnackRadar/ViewModels/SessionViewModel.swift:36-115 | any sequence of events without a failed sign-out preserves the invariant |
| Sessions.SignOutIdempotent | SnackRadar/ViewModels/SessionViewModel.swift:106-115 | signing out twice ends where signing out once does |
| Sessions.ApprovalReachesOrganizerHome | SnackRadar/ViewModels/SessionViewModel.swift:74-99 | an unapproved organizer lands on the pending screen and moves to organizer home when the listener delivers the approved profile |
| Sessions.LateFetchReopensHome | SnackRadar/ViewModels/SessionViewModel.swift:53-72 | a fetch completing after sign-out still shows the student home |
| CampusSelection.Load | SnackRadar/Services/CampusSelectionManager.swift:22-29 | the saved preference becomes the selected id, with no cached campus and no writes |
| CampusSelection.FetchCampusDetails | SnackRadar/Services/CampusSelectionManager.swift:70-79 | a successful lookup replaces the cached campus; a failed one changes nothing |
| CampusSelection.WriteCampusId | SnackRadar/Services/CampusSelectionManager.swift:31-60 | a remote write is logged iff a user is signed in, and its outcome returned |
| CampusSelection.SelectCampusId | SnackRadar/Services/CampusSelectionManager.swift:31-40 | the id and preference are set at once; the cached campus changes only on a successful lookup; one write per signed-in call |
| CampusSelection.SelectCampus | SnackRadar/Services/CampusSelectionManager.swift:42-50 | id, cached campus and preference are set before the write and are kept when it fails |
| CampusSelection.ClearSelection | SnackRadar/Services/CampusSelectionManager.swift:52-60 | id, campus and preference become nil; a signed-in user gets an empty campus id written |
| CampusSelection.SyncWithUserProfile | SnackRadar/Services/CampusSelectionManager.swift:62-79 | no campus or the same campus changes nothing; a different one, the empty string included, becomes the selection and preference, and the cached campus becomes the looked-up one on success and stays on failure; no writes, and a valid manager stays valid |
| CampusSelection.HasCampusSelected | SnackRadar/Services/CampusSelectionManager.swift:81-83 | true iff an id is selected |
| CampusSelection.WritesOnlyWhenSignedIn | SnackRadar/Services/CampusSelectionManager.swift:31-60 | signed out, no operation writes; signed in, select writes exactly once |
| CampusSelection.FailedLookupLeavesStaleCampus | SnackRadar/Services/CampusSelectionManager.swift:31-79 | after a failed lookup the cached campus is the previous one, whose id differs from the selected id |
| CampusSelection.ClearThenSyncSelectsEmptyId | SnackRadar/Services/CampusSelectionManager.swift:52-66 | clearing writes the empty id, and syncing with that profile then selects the empty id |
| CampusSelection.SyncIdempotent | SnackRadar/Services/CampusSelectionManager.swift:62-68 | syncing twice with the same profile is syncing once |
| EventForm.IsEditMode | SnackRadar/ViewModels/OrganizerEventFormViewModel.swift:37-42 | edit mode iff the form has an event id |
| EventForm.EventId | SnackRadar/ViewModels/OrganizerEventFormViewModel.swift:44-49 | an id exists iff editing, and it is the edited event's id |
| EventForm.InitialForm | SnackRadar/ViewModels/OrganizerEventFormViewModel.swift:11-81 | no errors or flags; create starts with empty text, dates one and two hours ahead and no image; edit loads the event's title, description, location, start, end and image |
| EventForm.TitleError | SnackRadar/ViewModels/OrganizerEventFormViewModel.swift:91-100 | no error iff the trimmed title is non-empty and the untrimmed length is 3..100; blank gives "Title is required" |
| EventForm.DescriptionError | SnackRadar/ViewModels/OrganizerEventFormViewModel.swift:102-111 | no error iff not blank with length 10..500; blank gives "Description is required" |
| EventForm.LocationError | SnackRadar/ViewModels/OrganizerEventFormViewModel.swift:113-119 | no error iff not blank with length at least 3; blank gives "Location is required" |
| EventForm.DateError | SnackRadar/ViewModels/OrganizerEventFormViewModel.swift:121-130 | a start more than 300 s in the past gives the past-start message, overriding the end-before-start message; no error iff neither applies |
| EventForm.Validate | SnackRadar/ViewModels/OrganizerEventFormViewModel.swift:83-133 | valid iff all four error fields are nil iff all four rules pass |
| EventForm.BuildEvent | SnackRadar/ViewModels/OrganizerEventFormViewModel.swift:155-185 | trimmed text and the form's dates and image; create gives a new unapproved event for the campus and organizer; edit keeps id, campus, organizer, approval and timestamps |
| EventForm.SaveEvent | SnackRadar/ViewModels/OrganizerEventFormViewModel.swift:135-204 | invalid input only sets errors and writes nothing; a write happens iff valid and the upload did not fail, creating iff in create mode, with the built event; success shown iff the write passed; a failed upload shows its error, writes nothing and leaves the success flag alone; loading ends either way |
| EventForm.ImageAfterUpload | SnackRadar/ViewModels/OrganizerEventFormViewModel.swift:146-151 | the uploaded URL replaces the existing image; without an upload the existing one stays |
| EventForm.PaddedTitlePassesButSavesShort | SnackRadar/ViewModels/OrganizerEventFormViewModel.swift:91-161 | the title " a " passes validation but is saved one character long |
| EventForm.EditWithoutChangesRebuildsSameEvent | SnackRadar/ViewModels/OrganizerEventFormViewModel.swift:73-185 | opening an already-trimmed event and saving it unchanged rebuilds exactly that event |
| Text.TrimEmptyIffBlank | SnackRadar/ViewModels/OrganizerEventFormViewModel.swift:91 | trimming gives the empty string iff every character is whitespace |
| Text.TrimIdempotent | SnackRadar/ViewModels/OrganizerEventFormViewModel.swift:156-161 | trimming a trimmed string changes nothing |
| Text.DecimalRoundTrip | SnackRadar/ViewModels/StudentHomeViewModel.swift:80-82 | the decimal digits an integer is printed as read back as that integer |
| Text.ByteToHex | SnackRadar/Services/PushNotificationManager.swift:74 | two hex digits whose value is the byte |
| StudentHome.StartListening | SnackRadar/ViewModels/StudentHomeViewModel.swift:35-46 | without a campus the feed empties and no listener is registered; otherwise loading starts with a listener for that campus |
| StudentHome.Deliver | SnackRadar/ViewModels/StudentHomeViewModel.swift:47-57 | a snapshot replaces the feed with exactly its events that have not ended; a failure keeps the events and sets the message |
| StudentHome.DeliverKeepsOrder | SnackRadar/ViewModels/StudentHomeViewModel.swift:51 | the expiry filter keeps delivery order: filtering a concatenation is concatenating the filtered parts |
| StudentHome.TruncDiv | SnackRadar/ViewModels/StudentHomeViewModel.swift:76 | Swift integer division rounds toward zero, for both signs |
| StudentHome.TruncMod | SnackRadar/ViewModels/StudentHomeViewModel.swift:77 | Swift's remainder completes the division and has the sign of the dividend |
| StudentHome.HoursMinutes | SnackRadar/ViewModels/StudentHomeViewModel.swift:76-77 | for t >= 0 the minutes are 0..59 and hours and minutes round t down to the minute; hours > 0 iff t >= 3600 |
| StudentHome.FormatTimeInterval | SnackRadar/ViewModels/StudentHomeViewModel.swift:75-86 | the label starts with the prefix and a space and ends in "m"; it is "< 1m" iff t < 60 |
| StudentHome.MinutesLabelReadsBack | SnackRadar/ViewModels/StudentHomeViewModel.swift:81-82 | for 60 <= t < 3600 the label is the prefix, the minutes in decimal and "m", and those minutes round t down |
| StudentHome.HoursLabelReadsBack | SnackRadar/ViewModels/StudentHomeViewModel.swift:75-80 | from an hour on the label is the prefix, the hours, "h ", the minutes and "m"; the minutes are below 60 and hours and minutes read back to t rounded down to the minute |
| StudentHome.RemainingTime | SnackRadar/ViewModels/StudentHomeViewModel.swift:61-73 | "Ended" iff expired; otherwise the time to the start, or to the end when live, with its prefix |
| StudentHome.LastMinuteLabel | SnackRadar/ViewModels/StudentHomeViewModel.swift:61-86 | a live event ending within the minute reads "Ends in < 1m" |
| StudentHome.BadgeColor | SnackRadar/ViewModels/StudentHomeViewModel.swift:88-97 | the text colour is always white; the background is a seven-character hex colour |
| StudentHome.BadgeBackgroundsDistinct | SnackRadar/ViewModels/StudentHomeViewModel.swift:88-97 | two statuses share a background iff they are equal |
| OrganizerHome.EventsWithStatus | SnackRadar/ViewModels/OrganizerHomeViewModel.swift:15-25 | each list holds exactly the events of its status |
| OrganizerHome.StatusListsPartition | SnackRadar/ViewModels/OrganizerHomeViewModel.swift:15-25 | the three filtered lists together hold every event exactly as often as it occurs |
| OrganizerHome.HomeListsPartition | SnackRadar/ViewModels/OrganizerHomeViewModel.swift:15-25 | the live, upcoming and expired lists partition the loaded events |
| OrganizerHome.LoadEvents | SnackRadar/ViewModels/OrganizerHomeViewModel.swift:37-56 | fetched events replace the list; a failure keeps it and sets the message; the delete state is untouched |
| OrganizerHome.ConfirmDelete | SnackRadar/ViewModels/OrganizerHomeViewModel.swift:58-61 | the event is marked and the confirmation shown, events unchanged |
| OrganizerHome.CancelDelete | SnackRadar/ViewModels/OrganizerHomeViewModel.swift:91-94 | mark and confirmation cleared, events unchanged |
| OrganizerHome.DeleteEvent | SnackRadar/ViewModels/OrganizerHomeViewModel.swift:63-89 | nothing marked: nothing happens; the image is deleted iff the event has one and the document is deleted last either way; success removes every event with the id and clears the mark; failure keeps the events and sets the message |
| OrganizerHome.DeleteKeepsOrder | SnackRadar/ViewModels/OrganizerHomeViewModel.swift:79-81 | the events left after a delete keep their relative order |
| Login.IsFormValid | SnackRadar/ViewModels/LoginViewModel.swift:18-20 | valid iff the email is non-empty and the password has at least six characters |
| Login.HandlePrimaryAction | SnackRadar/ViewModels/LoginViewModel.swift:22-59 | an invalid form does nothing; sign-in makes one call; sign-up calls sign-up, then creates the profile iff sign-up succeeded; an auth failure shows its message; a failed profile write after a sign-up shows its message; full success shows no error |
| Login.ProfileOnlyAfterSignUp | SnackRadar/ViewModels/LoginViewModel.swift:52-59 | a profile is created only in sign-up mode after a successful sign-up, second, for the new uid with the selected role |
| Login.SendPasswordReset | SnackRadar/ViewModels/LoginViewModel.swift:113-142 | an empty email gets the prompt and no call; otherwise one reset call whose outcome decides the message |
| Login.CharsetIndex | SnackRadar/ViewModels/LoginViewModel.swift:152 | the alphabet has 64 characters and each one's position is recovered from the character |
| Login.NonceCharDecodes | SnackRadar/ViewModels/LoginViewModel.swift:152-156 | a byte's nonce character determines the byte modulo 64 and is never 'W' |
| Login.Nonce | SnackRadar/ViewModels/LoginViewModel.swift:144-159 | for a non-empty byte sequence the nonce has one character per byte, each the alphabet entry at byte mod 64, none 'W' |
| ProfileSettings.LoadProfile | SnackRadar/ViewModels/ProfileViewModel.swift:37-48 | the profile, its notification flag and its links (default links when none) are adopted |
| ProfileSettings.UpdateCampus | SnackRadar/ViewModels/ProfileViewModel.swift:68-89 | no profile: no action; the selection is attempted first; the profile is written iff selection succeeded; full success sets the campus and the success message and refreshes; any failure keeps the campus and sets an error |
| ProfileSettings.UpdateNotificationPreference | SnackRadar/ViewModels/ProfileViewModel.swift:120-137 | the preference is written first; on success the flag takes the value and push is enabled or disabled to match; on failure only the message changes |
| ProfileSettings.ToggleNotifications | SnackRadar/ViewModels/ProfileViewModel.swift:91-118 | no profile: no action; not determined and on: no action; not determined and off: asks permission and stops if refused; denied: flag off, message, no call; authorized or provisional: preference update to the opposite value |
| ProfileSettings.ToggleTwiceRestores | SnackRadar/ViewModels/ProfileViewModel.swift:91-118 | with permission granted, two successful toggles restore the flag |
| ProfileSettings.DeniedNeverWrites | SnackRadar/ViewModels/ProfileViewModel.swift:111-113 | denied permission makes no call and turns the flag off |
| ProfileSettings.RequestOrganizerRole | SnackRadar/ViewModels/ProfileViewModel.swift:139-159 | no profile: no action; a non-student gets the message and no call; a student's request is sent, and the profile refreshed iff it succeeded |
| ProfileSettings.LinksToSave | SnackRadar/ViewModels/ProfileViewModel.swift:168 | empty links are saved as nil, others as they are |
| ProfileSettings.UpdateSocialLinks | SnackRadar/ViewModels/ProfileViewModel.swift:161-178 | no profile: no action; otherwise the links to save are written and the message reflects the outcome |
| ProfileSettings.SavedLinksHaveAField | SnackRadar/ViewModels/ProfileViewModel.swift:168 | links that are saved store at least one key |
| ProfileSettings.NoProfileNoAction | SnackRadar/ViewModels/ProfileViewModel.swift:68-178 | without a loaded profile every action changes nothing and calls nothing |
| MockStore.Create | SnackRadar/Services/MockDataProviders.swift:12-17 | with errors on, the store is unchanged and the call fails; otherwise the item is appended and the rest kept |
| MockStore.Get | SnackRadar/Services/MockDataProviders.swift:19-27 | not found iff no item has the id; a found item is the first with the id |
| MockStore.Update | SnackRadar/Services/MockDataProviders.swift:29-36 | only the first item with the new item's id is replaced; length kept; no match changes nothing |
| MockStore.Modify | SnackRadar/Services/MockDataProviders.swift:75-82 | only the first item with the id is transformed; length kept |
| MockStore.Delete | SnackRadar/Services/MockDataProviders.swift:38-43 | with errors on, nothing changes and the call fails; otherwise exactly the items without the id remain, each as often as it occurred |
| MockStore.DeleteKeepsOrder | SnackRadar/Services/MockDataProviders.swift:38-43 | deleting from a store split in two halves and joining the results is deleting from the whole, so the survivors keep their order |
| MockStore.Query | SnackRadar/Services/MockDataProviders.swift:56-61 | exactly the items satisfying the condition are returned |
| MockStore.ModifyKeepsFirst | SnackRadar/Services/MockDataProviders.swift:75-82 | a change that keeps ids keeps the first position of every id |
| MockStore.GetAfterCreate | SnackRadar/Services/MockDataProviders.swift:12-27 | creating an item with a fresh id makes it readable |
| MockStore.CreateDuplicateStaysHidden | SnackRadar/Services/MockDataProviders.swift:12-27 | creating an item whose id is already stored leaves the older item as the one read |
| MockStore.GetAfterUpdate | SnackRadar/Services/MockDataProviders.swift:19-36 | after updating a stored id, reading it gives the new item |
| MockStore.GetAfterDelete | SnackRadar/Services/MockDataProviders.swift:19-43 | after a delete the id is not found |
| MockStore.DeleteUndoesCreate | SnackRadar/Services/MockDataProviders.swift:12-43 | deleting an id after creating an item with it is the same as deleting it from the original store |
| MockRepositories.FilterStatus | SnackRadar/Services/MockDataProviders.swift:50-52 | with a status only events of that status remain; without one all do |
| MockRepositories.GetEventsByCampus | SnackRadar/Services/MockDataProviders.swift:45-54 | exactly the approved events of the campus, of the given status if any; failure when errors are on |
| MockRepositories.ByCampusIsOneFilter | SnackRadar/Services/MockDataProviders.swift:49-53 | the campus query is one filter over the store, so it keeps store order |
| MockRepositories.GetEventsByOrganizer | SnackRadar/Services/MockDataProviders.swift:56-61 | exactly the organizer's events, approved or not |
| MockRepositories.ListenToEvents | SnackRadar/Services/MockDataProviders.swift:63-73 | campus and approval filters apply only when a campus is given; the status filter when a status is |
| MockRepositories.ListenerIgnoresErrorSwitch | SnackRadar/Services/MockDataProviders.swift:63-73 | the listener ignores the error switch and agrees with the campus query |
| MockRepositories.NilCampusListensToUnapproved | SnackRadar/Services/MockDataProviders.swift:64-67 | without a campus an unapproved event is delivered, which the campus query never returns |
| MockRepositories.ApproveEvent | SnackRadar/Services/MockDataProviders.swift:75-82 | only the first event with the id becomes approved; everything else unchanged |
| MockRepositories.GetAllCampuses | SnackRadar/Services/MockDataProviders.swift:126-131 | all campuses in order, or failure iff errors are on |
| MockRepositories.GetActiveCampuses | SnackRadar/Services/MockDataProviders.swift:133-138 | exactly the active campuses |
| MockRepositories.ListenToActiveCampuses | SnackRadar/Services/MockDataProviders.swift:140-144 | exactly the active campuses, matching the one-shot query |
| MockRepositories.GetPromosByCampus | SnackRadar/Services/MockDataProviders.swift:188-193 | exactly the approved promos of the campus |
| MockRepositories.GetPromosByOrganizer | SnackRadar/Services/MockDataProviders.swift:195-200 | exactly the organizer's promos |
| MockRepositories.ListenToPromos | SnackRadar/Services/MockDataProviders.swift:202-206 | exactly the approved promos of the campus, matching the one-shot query |
| MockRepositories.ApprovePromo | SnackRadar/Services/MockDataProviders.swift:208-215 | only the first promo with the id becomes approved |
| MockRepositories.PinPromo | SnackRadar/Services/MockDataProviders.swift:217-224 | only the first promo with the id changes its pin, to the given value |
| MockRepositories.PinThenUnpinRestores | SnackRadar/Services/MockDataProviders.swift:217-224 | pinning an unpinned promo and unpinning it restores the store |
| EventQueries.StatusFiltersAgree | SnackRadar/Services/EventRepository.swift:85-94 | the upcoming and live conditions match the status exactly; the expired one does when start <= end |
| EventQueries.ExpiredFilterDisagrees | SnackRadar/Services/EventRepository.swift:85-94 | an event ending before it starts satisfies both the upcoming and the expired condition |
| EventQueries.QueryByStart | SnackRadar/Services/EventRepository.swift:76-157 | the result is ordered by start time and holds exactly the matching events, counted with multiplicity |
| EventQueries.QueryByStartSelects | SnackRadar/Services/EventRepository.swift:76-97 | an event is returned iff it is stored, of the campus when one is given, approved, and passes the status condition |
| EventQueries.ReadEvent | SnackRadar/Services/EventRepository.swift:43-44 | a document yields an event iff JSON serialisation accepts it (no timestamp anywhere) and init(from:) accepts it; the event is the one init(from:) reads |
| EventQueries.JsonReadStampsNow | SnackRadar/Services/EventRepository.swift:43-44 | an event read through JSON carries the time of the read in all four timestamps |
| EventQueries.AppWrittenEventUnreadable | SnackRadar/Services/EventRepository.swift:43-44 | the document asDictionary writes for any event yields no event, since it stores timestamps |
| EventQueries.DecodeAll | SnackRadar/Services/EventRepository.swift:101-105 | the batch reads iff every document reads; then it has one event per document, element i being what document i reads as |
| EventQueries.Stored | SnackRadar/Services/EventRepository.swift:23-31 | each stored document is the event's dictionary |
| EventQueries.StoredBatchReadsOnlyWhenEmpty | SnackRadar/Services/EventRepository.swift:101-105 | a batch of documents the app wrote reads iff it is empty |
| EventQueries.GetEventsByCampus | SnackRadar/Services/EventRepository.swift:76-109 | a failed fetch is wrapped as a Firestore error; after a fetch the call succeeds iff the query matched no stored event, and then returns none; otherwise the read failure is wrapped as a Firestore error |
| EventQueries.ListenSnapshot | SnackRadar/Services/EventRepository.swift:129-181 | a listener error is wrapped as a Firestore error; a snapshot is delivered as a success iff it matched no stored event, as the empty list; otherwise as a decoding error |
| EventQueries.ListenerOnlyApproved | SnackRadar/Services/EventRepository.swift:136-140 | the listener never delivers an unapproved event |
| EventQueries.ByOrganizerNewestFirst | SnackRadar/Services/EventRepository.swift:113-115 | the organizer\'s events, approved or not, newest first, each as often as stored |
| EventQueries.GetEventsByOrganizer | SnackRadar/Services/EventRepository.swift:111-127 | a failed fetch is wrapped; after a fetch the call succeeds iff the organizer has no stored event, and then returns none; otherwise the read failure is wrapped as a Firestore error |
| EventQueries.GetEvent | SnackRadar/Services/EventRepository.swift:33-51 | not found iff the document is missing; a network error becomes a Firestore error; a found document succeeds iff it reads, with the event read, and otherwise gives a Firestore error |
| EventQueries.StoredEventUnreadable | SnackRadar/Services/EventRepository.swift:33-51 | fetching an event the app stored reports the read failure as a Firestore error instead of the event |
| EventQueries.StampForUpdate | SnackRadar/Services/EventRepository.swift:54-55 | the written event is the event with updatedAt set to now and nothing else changed |
| EventQueries.UpdateChangesOnlyTimestamp | SnackRadar/Services/EventRepository.swift:53-64 | the written document differs from the stored one only in updatedAt |
| EventQueries.ApproveDocument | SnackRadar/Services/EventRepository.swift:183-194 | the merge sets isApproved and updatedAt and keeps every other key |
| EventQueries.ApproveStoresApprovedEvent | SnackRadar/Services/EventRepository.swift:183-194 | approving a stored event stores the approved event stamped now |
| Auth.MapAuthError | SnackRadar/Services/AuthService.swift:86-105 | wrong password or invalid credential gives invalid credentials; the four named codes map to their cases; any other or unrecognised code gives unknown with the message, each iff |
| Auth.Describe | SnackRadar/Services/AuthService.swift:13-28 | an unknown error describes as its own message |
| Auth.FixedDescriptionsDistinct | SnackRadar/Services/AuthService.swift:13-27 | the five fixed messages are pairwise distinct |
| Auth.ClassificationCoversErrors | SnackRadar/Services/AuthService.swift:86-105 | every error but unknown arises from some code, and an unrecognised code keeps the platform message |
| PushNotifications.FromPlatform | SnackRadar/Services/PushNotificationManager.swift:51-66 | authorized iff the platform says authorized, denied iff it says denied, otherwise not determined |
| PushNotifications.RequestPermission | SnackRadar/Services/PushNotificationManager.swift:27-49 | authorized and registered iff granted; denied on refusal or error |
| PushNotifications.HexEncode | SnackRadar/Services/PushNotificationManager.swift:73-81 | the token has two characters per byte |
| PushNotifications.HexRoundTrip | SnackRadar/Services/PushNotificationManager.swift:74-75 | decoding the token gives the device token's bytes back |
| PushNotifications.HexEncodePairs | SnackRadar/Services/PushNotificationManager.swift:74-75 | characters 2i and 2i+1 of the token are the hex digits of byte i |
| PushNotifications.HandleAPNsToken | SnackRadar/Services/PushNotificationManager.swift:73-81 | the token built byte by byte has length twice the bytes and each byte's two digits in place |
| PushNotifications.UpdatePushToken | SnackRadar/Services/PushNotificationManager.swift:83-89 | at most one write, made iff there is an FCM token, carrying the user and that token; the call succeeds iff there is a token and the write passes; without a token it fails with the fixed message |
| PushNotifications.LocalNotification | SnackRadar/Services/PushNotificationManager.swift:95-114 | badge 1; userInfo is empty without an event and holds exactly the event id and type "event" with one |
| PushNotifications.HandleNotificationResponse | SnackRadar/Services/PushNotificationManager.swift:157-167 | an id is posted iff eventId is a string and type is "event"; the completion always runs |
| PushNotifications.LocalNotificationRoutes | SnackRadar/Services/PushNotificationManager.swift:95-167 | tapping a local notification posts exactly the event it was scheduled for |
| Sorting.SortBy | SnackRadar/Services/EventRepository.swift:97 | the result is ordered by the key and is a permutation of the input |

## Left out

- SwiftUI views, Firebase configuration, `AppState`, `AppDelegate` and `NotificationService` are left out. They render or forward calls and hold no decision logic.
- Concurrency (`Task`, `MainActor`, listener threads) is left out. Callbacks are events applied in sequence.
- Floating-point time is left out. `TimeInterval` values are whole seconds, and the `Int(interval)` conversion before formatting is the identity on them.
- Locale-dependent date formatting in `DateFormatters.swift` is left out.
- The Sign in with Apple flow is left out:
  - CryptoKit SHA-256 is a foreign call;
  - `SecRandomCopyBytes` is randomness, so the nonce takes its bytes as input.
- `StorageService` image upload and JPEG compression are left out. The upload outcome is an input.
- `PushNotificationManager`: `broadcastEventNotification`, `removePushToken`, `clearBadge`, `registerForRemoteNotifications` and the Messaging delegate's token callback are left out. They are network or platform calls with no logic of their own.
- The `max(delay, 1)` trigger interval of local notifications is left out. It is floating point.
- `ProfileViewModel` uses members that the files modelled here do not declare:
  - the push-manager members `isEnabled`, `requestPermission(completion:)` and `disableNotifications`, absent from `PushNotificationManager.swift`;
  - `UserRepository.updateNotificationPreference`, `requestRoleUpgrade` and `updateSocialLinks`, absent from `UserRepository.swift`;
  - `SessionViewModel.refreshUserProfile`, absent from `SessionViewModel.swift`.

  Their outcomes (the permission status, the grant, each write's result) are inputs, and each call is recorded as a call value.
- The campus-list and selected-campus loading that `loadProfile` starts is left out. It is a fetch with no decision beyond the stored value.
- The Firestore query wiring in `UserRepository`, `PromoRepository` and `CampusRepository` is not modelled. Their filters mirror the mock repositories. Their reads go through the same JSON step as `EventRepository`, which the `…DictionaryRefusedByJson` lemmas state for the documents the app writes.
- The mock repositories' sample data and `remove()` of listener handles are left out.
- Firestore `documentID` generation on create is left out, along with create/delete in `EventRepository`, which are plain writes.
- `FoodType` and the display strings of `UserRole` and `FoodType` are left out. `Event.swift` has no food type.
- EventQueries.QueryByStart: the order among events with equal start time is left open. Firestore breaks such ties by document id, which the model does not represent.
- EventQueries.ReadEvent: `JSONSerialization.data(withJSONObject:)` reports a `Timestamp` by raising an Objective-C exception, not by throwing. The model returns the failure that the surrounding `catch` maps a thrown error to; on a device the exception would end the process instead. Either way no event comes back. A JSON object shaped like an encoded timestamp is not read as a date.
- EventQueries.GetEventsByCampus, EventQueries.ListenSnapshot and EventQueries.GetEventsByOrganizer: the collection holds only the documents the app wrote, and each of those stores timestamps. So every non-empty result is a read failure, and documents written by other clients are not modelled.
- EventForm.TitleError: lengths are counted in Unicode scalars. Swift's `count` counts grapheme clusters, so "ab" followed by a combining accent has length 3 here and 2 in Swift.
- EventForm.DescriptionError: lengths are counted in Unicode scalars, not in the grapheme clusters Swift's `count` counts.
- EventForm.LocationError: lengths are counted in Unicode scalars, not in the grapheme clusters Swift's `count` counts.
- EventForm.Validate: it inherits the scalar counting of the three field checks. Text with combining marks near a length bound can be judged differently here and in Swift.
- Login.IsFormValid: the password length is counted in Unicode scalars, not in the grapheme clusters Swift's `count` counts. A password of five letters and one combining accent passes here and fails in Swift.
- Events.NewEvent: the `createdAt` and `updatedAt` parameters are not taken; both are the default `Date()`, the current time `now`. No caller in the app passes them.
- Promos.NewPromo: the `createdAt` and `updatedAt` parameters are not taken; both are the default `Date()`, the current time `now`. No caller in the app passes them.
- Campuses.NewCampus: the `createdAt` parameter is not taken; it is the default `Date()`, the current time `now`. No caller in the app passes it.
- Profiles.NewProfile: the `createdAt` parameter is not taken; it is the default `Date()`, the current time `now`. No caller in the app passes it.
- Sessions.Step: the listener registration is modelled as the uid it listens to. The listener's own lifetime beyond removal in `signOut` is not modelled.
- Login.HandlePrimaryAction: the session view model's reaction to the sign-in is not part of this function. The profile creation it triggers is modelled in Sessions.CreateUserProfile.
