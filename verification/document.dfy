/** A Firestore document as the app reads and writes it: a map from field
    names to values, together with the reading rules of Swift's keyed
    decoding container that the models' `init(from:)` use. */
module Document {

  import opened Wrappers

  /** The cases of the models' `CodingKeys` enumerations, spelled as in the
      source. A document is keyed by these cases rather than by their raw
      strings: the raw value of each is the Firestore field name `KeyName`
      gives, and Swift requires the raw values of one enumeration to be
      distinct, so the two views of a document coincide. */
  datatype Key =
      id | title | description | campusId | organizerId | organizerName | location
    | startTime | endTime | imageUrl | isApproved | createdAt | updatedAt | content
    | isPinned | name | address | city | state | zipCode | latitude | longitude
    | isActive | uid | email | userRole | pushToken | notificationsEnabled
    | roleUpgradeRequested | socialLinks | instagram | twitter | facebook
    | linkedIn | website

  /** `CodingKey.stringValue`: the Firestore field name. */
  function KeyName(k: Key): string
  {
    match k
    case id => "id"
    case title => "title"
    case description => "description"
    case campusId => "campusId"
    case organizerId => "organizerId"
    case organizerName => "organizerName"
    case location => "location"
    case startTime => "startTime"
    case endTime => "endTime"
    case imageUrl => "imageUrl"
    case isApproved => "isApproved"
    case createdAt => "createdAt"
    case updatedAt => "updatedAt"
    case content => "content"
    case isPinned => "isPinned"
    case name => "name"
    case address => "address"
    case city => "city"
    case state => "state"
    case zipCode => "zipCode"
    case latitude => "latitude"
    case longitude => "longitude"
    case isActive => "isActive"
    case uid => "uid"
    case email => "email"
    case userRole => "userRole"
    case pushToken => "pushToken"
    case notificationsEnabled => "notificationsEnabled"
    case roleUpgradeRequested => "roleUpgradeRequested"
    case socialLinks => "socialLinks"
    case instagram => "instagram"
    case twitter => "twitter"
    case facebook => "facebook"
    case linkedIn => "linkedIn"
    case website => "website"
  }

  /** Field values the models store. `Time` is a Firestore `Timestamp` in
      whole seconds; `Num` carries a coordinate that is only ever copied. */
  datatype Value =
    | Str(s: string)
    | Bool(b: bool)
    | Time(seconds: int)
    | Num(x: real)
    | Null
    | Obj(fields: map<Key, Value>)

  type Doc = map<Key, Value>

  /** Whether Foundation's `JSONSerialization` can write the value: strings,
      booleans, numbers, null and dictionaries of such values are accepted,
      a Firestore `Timestamp` is not. */
  predicate JsonValue(v: Value)
    decreases v
  {
    match v
    case Time(_) => false
    case Obj(m) => forall k :: k in m ==> JsonValue(m[k])
    case _ => true
  }

  /** `JSONSerialization.data(withJSONObject:)` accepts the document. */
  predicate JsonSafe(d: Doc)
  {
    forall k :: k in d ==> JsonValue(d[k])
  }

  /** The failures a keyed decoding container reports. */
  datatype DecodeError =
    | KeyNotFound(key: Key)
    | ValueNotFound(key: Key)
    | TypeMismatch(key: Key)
    | DataCorrupted(key: Key)

  /** `container.decode(String.self, forKey: k)`. */
  function GetString(d: Doc, k: Key): (r: Result<string, DecodeError>)
    ensures r.Success? <==> k in d && d[k].Str?
    ensures r.Success? ==> r.value == d[k].s
    ensures k !in d ==> r == Failure(KeyNotFound(k))
  {
    if k !in d then Failure(KeyNotFound(k))
    else match d[k]
      case Str(s) => Success(s)
      case Null => Failure(ValueNotFound(k))
      case _ => Failure(TypeMismatch(k))
  }

  /** `container.decodeIfPresent(String.self, forKey: k)`: an absent key or
      a null value reads as nil, any other non-string is an error. */
  function GetStringIfPresent(d: Doc, k: Key): (r: Result<Option<string>, DecodeError>)
    ensures (k !in d || d[k] == Null) ==> r == Success(None)
    ensures k in d && d[k].Str? ==> r == Success(Some(d[k].s))
    ensures r.Failure? <==> k in d && !d[k].Str? && d[k] != Null
  {
    if k !in d then Success(None)
    else match d[k]
      case Str(s) => Success(Some(s))
      case Null => Success(None)
      case _ => Failure(TypeMismatch(k))
  }

  /** `container.decodeIfPresent(Bool.self, forKey: k)`. */
  function GetBoolIfPresent(d: Doc, k: Key): (r: Result<Option<bool>, DecodeError>)
    ensures (k !in d || d[k] == Null) ==> r == Success(None)
    ensures k in d && d[k].Bool? ==> r == Success(Some(d[k].b))
    ensures r.Failure? <==> k in d && !d[k].Bool? && d[k] != Null
  {
    if k !in d then Success(None)
    else match d[k]
      case Bool(b) => Success(Some(b))
      case Null => Success(None)
      case _ => Failure(TypeMismatch(k))
  }

  /** `container.decodeIfPresent(Double.self, forKey: k)`. */
  function GetNumIfPresent(d: Doc, k: Key): (r: Result<Option<real>, DecodeError>)
    ensures (k !in d || d[k] == Null) ==> r == Success(None)
    ensures k in d && d[k].Num? ==> r == Success(Some(d[k].x))
    ensures r.Failure? <==> k in d && !d[k].Num? && d[k] != Null
  {
    if k !in d then Success(None)
    else match d[k]
      case Num(x) => Success(Some(x))
      case Null => Success(None)
      case _ => Failure(TypeMismatch(k))
  }

  /** `container.decodeIfPresent(Nested.self, forKey: k)` for a nested
      keyed object. */
  function GetObjectIfPresent(d: Doc, k: Key): (r: Result<Option<Doc>, DecodeError>)
    ensures (k !in d || d[k] == Null) ==> r == Success(None)
    ensures k in d && d[k].Obj? ==> r == Success(Some(d[k].fields))
    ensures r.Failure? <==> k in d && !d[k].Obj? && d[k] != Null
  {
    if k !in d then Success(None)
    else match d[k]
      case Obj(m) => Success(Some(m))
      case Null => Success(None)
      case _ => Failure(TypeMismatch(k))
  }

  /** `k` holds the string `v`: what `decode(String.self, forKey: k)` reads. */
  ghost predicate ReadsString(d: Doc, k: Key, v: string)
  {
    k in d && d[k] == Str(v)
  }

  /** `decodeIfPresent(String.self, forKey: k)` accepts `d`: the key is
      absent, null or a string. */
  ghost predicate OptionalStringOk(d: Doc, k: Key)
  {
    k !in d || d[k].Str? || d[k] == Null
  }

  /** `decodeIfPresent(Bool.self, forKey: k)` accepts `d`. */
  ghost predicate OptionalBoolOk(d: Doc, k: Key)
  {
    k !in d || d[k].Bool? || d[k] == Null
  }

  /** `decodeIfPresent(Double.self, forKey: k)` accepts `d`. */
  ghost predicate OptionalNumOk(d: Doc, k: Key)
  {
    k !in d || d[k].Num? || d[k] == Null
  }

  /** `v` is the optional string stored at `k`: nil unless `k` holds a string. */
  ghost predicate ReadsOptionalString(d: Doc, k: Key, v: Option<string>)
  {
    if k in d && d[k].Str? then v == Some(d[k].s) else v == None
  }

  /** `v` is the optional number stored at `k`. */
  ghost predicate ReadsOptionalNum(d: Doc, k: Key, v: Option<real>)
  {
    if k in d && d[k].Num? then v == Some(d[k].x) else v == None
  }

  /** `v` is the flag stored at `k`, or `default` when none is stored. */
  ghost predicate ReadsFlag(d: Doc, k: Key, default: bool, v: bool)
  {
    if k in d && d[k].Bool? then v == d[k].b else v == default
  }

  /** `t` is the timestamp stored at `k`, or the current time `now` when `k`
      holds no timestamp. */
  ghost predicate ReadsTime(d: Doc, k: Key, now: int, t: int)
  {
    if k in d && d[k].Time? then t == d[k].seconds else t == now
  }

  /** `(try? container.decode(Timestamp.self, forKey: k))?.dateValue() ?? now`:
      any failure to read a timestamp falls back to the current time. */
  function TimestampOr(d: Doc, k: Key, now: int): (t: int)
    ensures k in d && d[k].Time? ==> t == d[k].seconds
    ensures !(k in d && d[k].Time?) ==> t == now
  {
    if k in d && d[k].Time? then d[k].seconds else now
  }
}

/** `RepositoryError` from the user repository, shared by every repository. */
module RepositoryErrors {

  datatype RepositoryError =
    | DocumentNotFound
    | EncodingError
    | DecodingError
    | FirestoreError(message: string)

  /** The message the mock repositories throw with. */
  const MockErrorMessage: string := "Mock error"

  /** `RepositoryError.errorDescription`. */
  function Describe(e: RepositoryError): (m: string)
    ensures e.FirestoreError? ==> m == e.message
    ensures e == DocumentNotFound ==> m == "User profile not found."
  {
    match e
    case DocumentNotFound => "User profile not found."
    case EncodingError => "Failed to encode user data."
    case DecodingError => "Failed to decode user data."
    case FirestoreError(message) => message
  }

  /** The three fixed descriptions differ from each other. */
  lemma FixedDescriptionsDistinct()
    ensures Describe(DocumentNotFound) != Describe(EncodingError)
    ensures Describe(DocumentNotFound) != Describe(DecodingError)
    ensures Describe(EncodingError) != Describe(DecodingError)
  {
  }
}
