/** The user records: `SocialLinks`, `UserRole` and `UserProfile`, with the
    memberwise initialiser, the document decoder and `asDictionary`. */
module Profiles {

  import opened Wrappers
  import opened Document

  // ---------------------------------------------------------------- SocialLinks

  datatype SocialLinks = SocialLinks(
    instagram: Option<string>,
    twitter: Option<string>,
    facebook: Option<string>,
    linkedIn: Option<string>,
    website: Option<string>)
  {
    /** `isEmpty`: no link is present. A present empty string counts as a
        link. */
    predicate IsEmpty()
    {
      instagram.None? && twitter.None? && facebook.None? && linkedIn.None? && website.None?
    }
  }

  /** `SocialLinks()`: every link absent. */
  const NoLinks: SocialLinks := SocialLinks(None, None, None, None, None)

  datatype LinkField = Instagram | Twitter | Facebook | LinkedIn | Website

  /** Sets one link, leaving the other four alone. */
  function WithLink(l: SocialLinks, f: LinkField, v: Option<string>): SocialLinks
  {
    match f
    case Instagram => l.(instagram := v)
    case Twitter => l.(twitter := v)
    case Facebook => l.(facebook := v)
    case LinkedIn => l.(linkedIn := v)
    case Website => l.(website := v)
  }

  /** The default links are empty, and setting any one link to any string,
      the empty string included, makes them non-empty. */
  lemma EmptinessOfLinks(l: SocialLinks, f: LinkField, s: string)
    ensures NoLinks.IsEmpty()
    ensures !WithLink(l, f, Some(s)).IsEmpty()
  {
  }

  const LinkKeys: set<Key> := {Key.instagram, Key.twitter, Key.facebook, Key.linkedIn, Key.website}

  /** The JSON object the synthesised `Codable` conformance produces:
      absent links are omitted, present ones are strings. */
  function LinksToObject(l: SocialLinks): (d: Doc)
    ensures d.Keys <= LinkKeys
    ensures Key.instagram in d <==> l.instagram.Some?
    ensures Key.twitter in d <==> l.twitter.Some?
    ensures Key.facebook in d <==> l.facebook.Some?
    ensures Key.linkedIn in d <==> l.linkedIn.Some?
    ensures Key.website in d <==> l.website.Some?
  {
    var d: Doc := map[];
    var d := if l.instagram.Some? then d[Key.instagram := Str(l.instagram.value)] else d;
    var d := if l.twitter.Some? then d[Key.twitter := Str(l.twitter.value)] else d;
    var d := if l.facebook.Some? then d[Key.facebook := Str(l.facebook.value)] else d;
    var d := if l.linkedIn.Some? then d[Key.linkedIn := Str(l.linkedIn.value)] else d;
    if l.website.Some? then d[Key.website := Str(l.website.value)] else d
  }

  /** The objects the synthesised decoder accepts: each link key is
      absent, null or a string. */
  ghost predicate LinksDecodable(d: Doc)
  {
    && OptionalStringOk(d, Key.instagram)
    && OptionalStringOk(d, Key.twitter)
    && OptionalStringOk(d, Key.facebook)
    && OptionalStringOk(d, Key.linkedIn)
    && OptionalStringOk(d, Key.website)
  }

  /** `l` holds each link stored in `d`, and nil where none is stored. */
  ghost predicate ReadsLinks(d: Doc, l: SocialLinks)
  {
    && ReadsOptionalString(d, Key.instagram, l.instagram)
    && ReadsOptionalString(d, Key.twitter, l.twitter)
    && ReadsOptionalString(d, Key.facebook, l.facebook)
    && ReadsOptionalString(d, Key.linkedIn, l.linkedIn)
    && ReadsOptionalString(d, Key.website, l.website)
  }

  /** The synthesised decoder: every link is optional. */
  function LinksFromObject(d: Doc): (r: Result<SocialLinks, DecodeError>)
    ensures r.Success? <==> LinksDecodable(d)
    ensures r.Success? ==> ReadsLinks(d, r.value)
  {
    var instagram :- GetStringIfPresent(d, Key.instagram);
    var twitter :- GetStringIfPresent(d, Key.twitter);
    var facebook :- GetStringIfPresent(d, Key.facebook);
    var linkedIn :- GetStringIfPresent(d, Key.linkedIn);
    var website :- GetStringIfPresent(d, Key.website);
    Success(SocialLinks(instagram, twitter, facebook, linkedIn, website))
  }

  /** Links survive a trip through their JSON object. */
  lemma LinksRoundTrip(l: SocialLinks)
    ensures LinksFromObject(LinksToObject(l)) == Success(l)
  {
    var d := LinksToObject(l);
    assert GetStringIfPresent(d, Key.instagram) == Success(l.instagram);
    assert GetStringIfPresent(d, Key.twitter) == Success(l.twitter);
    assert GetStringIfPresent(d, Key.facebook) == Success(l.facebook);
    assert GetStringIfPresent(d, Key.linkedIn) == Success(l.linkedIn);
    assert GetStringIfPresent(d, Key.website) == Success(l.website);
  }

  /** `isEmpty` holds exactly when the links encode to an empty object. */
  lemma EmptyIffNoFields(l: SocialLinks)
    ensures l.IsEmpty() <==> LinksToObject(l) == map[]
  {
    var d := LinksToObject(l);
    if !l.IsEmpty() {
      assert exists k :: k in d;
    }
  }

  // ---------------------------------------------------------------- UserRole

  datatype UserRole = Student | Organizer

  /** `UserRole.rawValue`. */
  function RoleRaw(r: UserRole): string
  {
    match r
    case Student => "student"
    case Organizer => "organizer"
  }

  /** `UserRole(rawValue:)`. */
  function ParseRole(s: string): (r: Option<UserRole>)
    ensures r.Some? ==> RoleRaw(r.value) == s
  {
    if s == "student" then Some(Student)
    else if s == "organizer" then Some(Organizer)
    else None
  }

  lemma RoleRawRoundTrip(r: UserRole)
    ensures ParseRole(RoleRaw(r)) == Some(r)
  {
  }

  // ---------------------------------------------------------------- UserProfile

  datatype UserProfile = UserProfile(
    uid: string,
    email: string,
    userRole: UserRole,
    campusId: Option<string>,
    pushToken: Option<string>,
    createdAt: int,
    isApproved: bool,
    notificationsEnabled: bool,
    roleUpgradeRequested: bool,
    socialLinks: Option<SocialLinks>)

  /** The memberwise initialiser. Its `isApproved` argument is ignored:
      a student is always approved and an organizer never is. `createdAt`
      defaults to the current time, passed in as `now`. */
  function NewProfile(
    uid: string,
    email: string,
    userRole: UserRole,
    now: int,
    campusId: Option<string> := None,
    pushToken: Option<string> := None,
    isApproved: bool := true,
    notificationsEnabled: bool := false,
    roleUpgradeRequested: bool := false,
    socialLinks: Option<SocialLinks> := None): (p: UserProfile)
    ensures p.isApproved <==> userRole == Student
    ensures p.uid == uid && p.email == email && p.userRole == userRole && p.createdAt == now
    ensures p.campusId == campusId && p.pushToken == pushToken && p.socialLinks == socialLinks
    ensures p.notificationsEnabled == notificationsEnabled
    ensures p.roleUpgradeRequested == roleUpgradeRequested
  {
    UserProfile(uid, email, userRole, campusId, pushToken, now,
                userRole == Student, notificationsEnabled, roleUpgradeRequested, socialLinks)
  }

  /** With only the required arguments, the initialiser leaves every
      optional absent and both flags off, and no `isApproved` argument
      changes the result. */
  lemma NewProfileDefaults(uid: string, email: string, role: UserRole, now: int, approved: bool)
    ensures NewProfile(uid, email, role, now).notificationsEnabled == false
    ensures NewProfile(uid, email, role, now).roleUpgradeRequested == false
    ensures NewProfile(uid, email, role, now).campusId == None
    ensures NewProfile(uid, email, role, now).socialLinks == None
    ensures NewProfile(uid, email, role, now, isApproved := approved) == NewProfile(uid, email, role, now)
  {
  }

  /** The documents `init(from:)` accepts: `uid` and `email` are strings,
      `userRole` is the raw value of a role, the optional strings and flags
      are absent, null or of their type, and `socialLinks` is absent, null
      or an object of links. */
  ghost predicate ProfileDecodable(d: Doc)
  {
    && Key.uid in d && d[Key.uid].Str?
    && Key.email in d && d[Key.email].Str?
    && Key.userRole in d && d[Key.userRole].Str? && ParseRole(d[Key.userRole].s).Some?
    && OptionalStringOk(d, Key.campusId)
    && OptionalStringOk(d, Key.pushToken)
    && OptionalBoolOk(d, Key.isApproved)
    && OptionalBoolOk(d, Key.notificationsEnabled)
    && OptionalBoolOk(d, Key.roleUpgradeRequested)
    && (Key.socialLinks !in d || d[Key.socialLinks] == Null
        || (d[Key.socialLinks].Obj? && LinksDecodable(d[Key.socialLinks].fields)))
  }

  /** `p` is the profile `init(from:)` builds from `d` at `now`: the strings
      and the role as stored, the optionals when stored, approval true and
      the other two flags false unless stored, and the creation time as
      stored or else `now`. */
  ghost predicate ReadsProfile(d: Doc, now: int, p: UserProfile)
  {
    && ReadsString(d, Key.uid, p.uid)
    && ReadsString(d, Key.email, p.email)
    && ReadsString(d, Key.userRole, RoleRaw(p.userRole))
    && ReadsOptionalString(d, Key.campusId, p.campusId)
    && ReadsOptionalString(d, Key.pushToken, p.pushToken)
    && ReadsTime(d, Key.createdAt, now, p.createdAt)
    && ReadsFlag(d, Key.isApproved, true, p.isApproved)
    && ReadsFlag(d, Key.notificationsEnabled, false, p.notificationsEnabled)
    && ReadsFlag(d, Key.roleUpgradeRequested, false, p.roleUpgradeRequested)
    && (if Key.socialLinks in d && d[Key.socialLinks].Obj?
        then p.socialLinks.Some? && ReadsLinks(d[Key.socialLinks].fields, p.socialLinks.value)
        else p.socialLinks.None?)
  }

  /** `init(from:)`. Required: `uid`, `email`, `userRole` (one of the two raw
      values). Missing `isApproved` reads as true, so a stored organizer
      without the field counts as approved; missing notification and
      upgrade flags read as false; a missing `createdAt` is the current
      time. */
  function DecodeProfile(d: Doc, now: int): (r: Result<UserProfile, DecodeError>)
    ensures r.Success? ==> Key.uid in d && d[Key.uid] == Str(r.value.uid)
    ensures r.Success? ==> Key.userRole in d && d[Key.userRole] == Str(RoleRaw(r.value.userRole))
    ensures r.Success? && Key.isApproved !in d ==> r.value.isApproved
    ensures r.Success? && Key.notificationsEnabled !in d ==> !r.value.notificationsEnabled
    ensures r.Success? && Key.roleUpgradeRequested !in d ==> !r.value.roleUpgradeRequested
    ensures r.Success? && Key.campusId !in d ==> r.value.campusId.None?
    ensures r.Success? && Key.createdAt !in d ==> r.value.createdAt == now
    ensures Key.uid !in d || Key.email !in d || Key.userRole !in d ==> r.Failure?
    ensures r.Success? <==> ProfileDecodable(d)
    ensures r.Success? ==> ReadsProfile(d, now, r.value)
  {
    var uid :- GetString(d, Key.uid);
    var email :- GetString(d, Key.email);
    var rawRole :- GetString(d, Key.userRole);
    var role :- ParseRole(rawRole).ToResultOr(DataCorrupted(Key.userRole));
    var campusId :- GetStringIfPresent(d, Key.campusId);
    var pushToken :- GetStringIfPresent(d, Key.pushToken);
    var createdAt := TimestampOr(d, Key.createdAt, now);
    var isApproved :- GetBoolIfPresent(d, Key.isApproved);
    var notificationsEnabled :- GetBoolIfPresent(d, Key.notificationsEnabled);
    var roleUpgradeRequested :- GetBoolIfPresent(d, Key.roleUpgradeRequested);
    var linksObject :- GetObjectIfPresent(d, Key.socialLinks);
    var socialLinks :- DecodeLinksIfPresent(linksObject);
    Success(UserProfile(uid, email, role, campusId, pushToken, createdAt,
                        isApproved.GetOr(true), notificationsEnabled.GetOr(false),
                        roleUpgradeRequested.GetOr(false), socialLinks))
  }

  function DecodeLinksIfPresent(o: Option<Doc>): Result<Option<SocialLinks>, DecodeError>
  {
    match o
    case None => Success(None)
    case Some(m) =>
      var l :- LinksFromObject(m);
      Success(Some(l))
  }

  /** The seven keys every profile dictionary holds. */
  const ProfileFixedKeys: set<Key> :=
    {Key.uid, Key.email, Key.userRole, Key.createdAt, Key.isApproved,
     Key.notificationsEnabled, Key.roleUpgradeRequested}

  /** The keys a profile dictionary may hold. */
  const ProfileKeys: set<Key> := ProfileFixedKeys + {Key.campusId, Key.pushToken, Key.socialLinks}

  /** `asDictionary`: the seven fixed fields, then `campusId`, `pushToken`
      and the nested `socialLinks` object only when present. */
  function ProfileAsDictionary(p: UserProfile): (d: Doc)
    ensures d.Keys <= ProfileKeys
  {
    var d := map[Key.uid := Str(p.uid), Key.email := Str(p.email),
                 Key.userRole := Str(RoleRaw(p.userRole)), Key.createdAt := Time(p.createdAt),
                 Key.isApproved := Bool(p.isApproved),
                 Key.notificationsEnabled := Bool(p.notificationsEnabled),
                 Key.roleUpgradeRequested := Bool(p.roleUpgradeRequested)];
    var d := if p.campusId.Some? then d[Key.campusId := Str(p.campusId.value)] else d;
    var d := if p.pushToken.Some? then d[Key.pushToken := Str(p.pushToken.value)] else d;
    if p.socialLinks.Some? then d[Key.socialLinks := Obj(LinksToObject(p.socialLinks.value))] else d
  }

  /** `d` carries the seven fixed fields of `p`, the role as its raw string
      and the creation time as a timestamp. */
  ghost predicate HoldsFixedFields(d: Doc, p: UserProfile)
  {
    && ProfileFixedKeys <= d.Keys
    && d[Key.uid] == Str(p.uid)
    && d[Key.email] == Str(p.email)
    && d[Key.userRole] == Str(RoleRaw(p.userRole))
    && d[Key.createdAt] == Time(p.createdAt)
    && d[Key.isApproved] == Bool(p.isApproved)
    && d[Key.notificationsEnabled] == Bool(p.notificationsEnabled)
    && d[Key.roleUpgradeRequested] == Bool(p.roleUpgradeRequested)
  }

  /** `d` holds `campusId`, `pushToken` and the nested `socialLinks` object
      exactly when `p` has them, with their values. */
  ghost predicate HoldsOptionalFields(d: Doc, p: UserProfile)
  {
    && (Key.campusId in d <==> p.campusId.Some?)
    && (p.campusId.Some? ==> d[Key.campusId] == Str(p.campusId.value))
    && (Key.pushToken in d <==> p.pushToken.Some?)
    && (p.pushToken.Some? ==> d[Key.pushToken] == Str(p.pushToken.value))
    && (Key.socialLinks in d <==> p.socialLinks.Some?)
    && (p.socialLinks.Some? ==> d[Key.socialLinks] == Obj(LinksToObject(p.socialLinks.value)))
  }

  /** The dictionary has the seven fixed fields. */
  lemma DictionaryHoldsFixedFields(p: UserProfile)
    ensures HoldsFixedFields(ProfileAsDictionary(p), p)
  {
    var d := map[Key.uid := Str(p.uid), Key.email := Str(p.email),
                 Key.userRole := Str(RoleRaw(p.userRole)), Key.createdAt := Time(p.createdAt),
                 Key.isApproved := Bool(p.isApproved),
                 Key.notificationsEnabled := Bool(p.notificationsEnabled),
                 Key.roleUpgradeRequested := Bool(p.roleUpgradeRequested)];
    assert HoldsFixedFields(d, p);
    var d1 := if p.campusId.Some? then d[Key.campusId := Str(p.campusId.value)] else d;
    assert HoldsFixedFields(d1, p);
    var d2 := if p.pushToken.Some? then d1[Key.pushToken := Str(p.pushToken.value)] else d1;
    assert HoldsFixedFields(d2, p);
    var d3 := if p.socialLinks.Some? then d2[Key.socialLinks := Obj(LinksToObject(p.socialLinks.value))] else d2;
    assert HoldsFixedFields(d3, p);
    assert ProfileAsDictionary(p) == d3;
  }

  /** The dictionary has each optional field exactly when the profile does. */
  lemma DictionaryHoldsOptionalFields(p: UserProfile)
    ensures HoldsOptionalFields(ProfileAsDictionary(p), p)
  {
  }

  /** The decoder reads back any document holding the fields of `p`,
      whatever else the document contains. */
  lemma {:induction false} DecodeFromFields(d: Doc, p: UserProfile, now: int)
    requires HoldsFixedFields(d, p) && HoldsOptionalFields(d, p)
    ensures DecodeProfile(d, now) == Success(p)
  {
    assert GetString(d, Key.uid) == Success(p.uid);
    assert GetString(d, Key.email) == Success(p.email);
    assert GetString(d, Key.userRole) == Success(RoleRaw(p.userRole));
    RoleRawRoundTrip(p.userRole);
    assert GetStringIfPresent(d, Key.campusId) == Success(p.campusId);
    assert GetStringIfPresent(d, Key.pushToken) == Success(p.pushToken);
    assert TimestampOr(d, Key.createdAt, now) == p.createdAt;
    assert GetBoolIfPresent(d, Key.isApproved) == Success(Some(p.isApproved));
    assert GetBoolIfPresent(d, Key.notificationsEnabled) == Success(Some(p.notificationsEnabled));
    assert GetBoolIfPresent(d, Key.roleUpgradeRequested) == Success(Some(p.roleUpgradeRequested));
    match p.socialLinks {
      case None =>
        assert GetObjectIfPresent(d, Key.socialLinks) == Success(None);
      case Some(l) =>
        assert GetObjectIfPresent(d, Key.socialLinks) == Success(Some(LinksToObject(l)));
        LinksRoundTrip(l);
    }
  }

  /** Decoding what `asDictionary` wrote gives back the same profile, when
      the decoder is handed the timestamp as a timestamp. */
  lemma {:induction false} ProfileRoundTrip(p: UserProfile, now: int)
    ensures DecodeProfile(ProfileAsDictionary(p), now) == Success(p)
  {
    DictionaryHoldsFixedFields(p);
    DictionaryHoldsOptionalFields(p);
    DecodeFromFields(ProfileAsDictionary(p), p, now);
  }

  /** The user repository reads through `JSONSerialization`, which accepts
      no timestamp: the dictionary `asDictionary` writes is refused. */
  lemma ProfileDictionaryRefusedByJson(p: UserProfile)
    ensures !JsonSafe(ProfileAsDictionary(p))
  {
    DictionaryHoldsFixedFields(p);
    assert !JsonValue(ProfileAsDictionary(p)[Key.createdAt]);
  }

  /** A profile that does come through `JSONSerialization` carries the time
      of the read as its creation time. */
  lemma JsonReadProfileStampsNow(d: Doc, now: int)
    requires JsonSafe(d) && DecodeProfile(d, now).Success?
    ensures DecodeProfile(d, now).value.createdAt == now
  {
    if Key.createdAt in d {
      assert JsonValue(d[Key.createdAt]);
    }
  }

  /** A stored organizer document without `isApproved` decodes as approved,
      unlike a freshly initialised organizer. */
  lemma DecodedOrganizerDefaultsToApproved(uid: string, email: string, now: int)
    ensures var d := map[Key.uid := Str(uid), Key.email := Str(email), Key.userRole := Str("organizer")];
            DecodeProfile(d, now).Success? && DecodeProfile(d, now).value.isApproved
    ensures !NewProfile(uid, email, Organizer, now).isApproved
  {
    var d := map[Key.uid := Str(uid), Key.email := Str(email), Key.userRole := Str("organizer")];
    assert GetString(d, Key.userRole) == Success("organizer");
  }
}
