/** `Campus`: a university campus, with its memberwise initialiser, the
    document decoder, `asDictionary` and `fullAddress`. Coordinates are
    opaque numbers that are only copied. */
module Campuses {

  import opened Wrappers
  import opened Document

  datatype Campus = Campus(
    id: string,
    name: string,
    address: string,
    city: string,
    state: string,
    zipCode: string,
    latitude: Option<real>,
    longitude: Option<real>,
    isActive: bool,
    createdAt: int)

  /** The memberwise initialiser; `id` stands for the generated UUID string
      and `createdAt` defaults to `now`. */
  function NewCampus(
    id: string,
    name: string,
    address: string,
    city: string,
    state: string,
    zipCode: string,
    now: int,
    latitude: Option<real> := None,
    longitude: Option<real> := None,
    isActive: bool := true): (c: Campus)
    ensures c.id == id && c.name == name && c.address == address
    ensures c.city == city && c.state == state && c.zipCode == zipCode
    ensures c.latitude == latitude && c.longitude == longitude
    ensures c.isActive == isActive && c.createdAt == now
  {
    Campus(id, name, address, city, state, zipCode, latitude, longitude, isActive, now)
  }

  /** Without the optional arguments a new campus is active and has no
      coordinates. */
  lemma NewCampusDefaults(id: string, name: string, address: string, city: string,
                          state: string, zipCode: string, now: int)
    ensures NewCampus(id, name, address, city, state, zipCode, now).isActive
    ensures NewCampus(id, name, address, city, state, zipCode, now).latitude.None?
    ensures NewCampus(id, name, address, city, state, zipCode, now).longitude.None?
  {
  }

  /** The documents `init(from:)` accepts: the six strings are present,
      and the coordinates and `isActive` are absent, null or of their
      type. */
  ghost predicate CampusDecodable(d: Doc)
  {
    && Key.id in d && d[Key.id].Str?
    && Key.name in d && d[Key.name].Str?
    && Key.address in d && d[Key.address].Str?
    && Key.city in d && d[Key.city].Str?
    && Key.state in d && d[Key.state].Str?
    && Key.zipCode in d && d[Key.zipCode].Str?
    && OptionalNumOk(d, Key.latitude)
    && OptionalNumOk(d, Key.longitude)
    && OptionalBoolOk(d, Key.isActive)
  }

  /** `c` is the campus `init(from:)` builds from `d` at `now`: the strings
      as stored, each coordinate when stored, active unless stored
      otherwise, and `createdAt` as stored or else `now`. */
  ghost predicate ReadsCampus(d: Doc, now: int, c: Campus)
  {
    && ReadsString(d, Key.id, c.id)
    && ReadsString(d, Key.name, c.name)
    && ReadsString(d, Key.address, c.address)
    && ReadsString(d, Key.city, c.city)
    && ReadsString(d, Key.state, c.state)
    && ReadsString(d, Key.zipCode, c.zipCode)
    && ReadsOptionalNum(d, Key.latitude, c.latitude)
    && ReadsOptionalNum(d, Key.longitude, c.longitude)
    && ReadsFlag(d, Key.isActive, true, c.isActive)
    && ReadsTime(d, Key.createdAt, now, c.createdAt)
  }

  /** `init(from:)`. It fails exactly when a required string is missing or
      a field has the wrong type; otherwise it reads the campus as
      `ReadsCampus` describes. */
  function DecodeCampus(d: Doc, now: int): (r: Result<Campus, DecodeError>)
    ensures r.Success? <==> CampusDecodable(d)
    ensures r.Success? ==> ReadsCampus(d, now, r.value)
    ensures Key.id !in d ==> r == Failure(KeyNotFound(Key.id))
  {
    var id :- GetString(d, Key.id);
    var name :- GetString(d, Key.name);
    var address :- GetString(d, Key.address);
    var city :- GetString(d, Key.city);
    var state :- GetString(d, Key.state);
    var zipCode :- GetString(d, Key.zipCode);
    var latitude :- GetNumIfPresent(d, Key.latitude);
    var longitude :- GetNumIfPresent(d, Key.longitude);
    var isActive :- GetBoolIfPresent(d, Key.isActive);
    Success(Campus(id, name, address, city, state, zipCode, latitude, longitude,
                   isActive.GetOr(true), TimestampOr(d, Key.createdAt, now)))
  }

  /** The eight keys every campus dictionary holds. */
  const CampusFixedKeys: set<Key> :=
    {Key.id, Key.name, Key.address, Key.city, Key.state, Key.zipCode, Key.isActive, Key.createdAt}

  /** The fixed part of the dictionary. */
  function FixedEntries(c: Campus): Doc
  {
    map[Key.id := Str(c.id), Key.name := Str(c.name), Key.address := Str(c.address),
        Key.city := Str(c.city), Key.state := Str(c.state), Key.zipCode := Str(c.zipCode),
        Key.isActive := Bool(c.isActive), Key.createdAt := Time(c.createdAt)]
  }

  /** `asDictionary`, and equally the document `encode(to:)` writes: the
      eight fixed fields, plus each coordinate only when present. */
  function CampusAsDictionary(c: Campus): (d: Doc)
    ensures d.Keys <= CampusFixedKeys + {Key.latitude, Key.longitude}
    ensures Key.latitude in d <==> c.latitude.Some?
    ensures Key.longitude in d <==> c.longitude.Some?
  {
    var d := FixedEntries(c);
    var d := if c.latitude.Some? then d[Key.latitude := Num(c.latitude.value)] else d;
    if c.longitude.Some? then d[Key.longitude := Num(c.longitude.value)] else d
  }

  /** `d` carries the eight fixed fields of `c`. */
  ghost predicate HoldsFixedFields(d: Doc, c: Campus)
  {
    && CampusFixedKeys <= d.Keys
    && d[Key.id] == Str(c.id)
    && d[Key.name] == Str(c.name)
    && d[Key.address] == Str(c.address)
    && d[Key.city] == Str(c.city)
    && d[Key.state] == Str(c.state)
    && d[Key.zipCode] == Str(c.zipCode)
    && d[Key.isActive] == Bool(c.isActive)
    && d[Key.createdAt] == Time(c.createdAt)
  }

  /** `d` holds each coordinate of `c` exactly when `c` has it. */
  ghost predicate HoldsCoordinates(d: Doc, c: Campus)
  {
    && (Key.latitude in d <==> c.latitude.Some?)
    && (c.latitude.Some? ==> d[Key.latitude] == Num(c.latitude.value))
    && (Key.longitude in d <==> c.longitude.Some?)
    && (c.longitude.Some? ==> d[Key.longitude] == Num(c.longitude.value))
  }

  /** The dictionary always holds the eight fixed fields. */
  lemma DictionaryHoldsFixedFields(c: Campus)
    ensures HoldsFixedFields(CampusAsDictionary(c), c)
  {
    var d := FixedEntries(c);
    assert HoldsFixedFields(d, c);
    var d1 := if c.latitude.Some? then d[Key.latitude := Num(c.latitude.value)] else d;
    assert HoldsFixedFields(d1, c);
    var d2 := if c.longitude.Some? then d1[Key.longitude := Num(c.longitude.value)] else d1;
    assert HoldsFixedFields(d2, c);
    assert CampusAsDictionary(c) == d2;
  }

  /** The dictionary holds each coordinate exactly when the campus does. */
  lemma DictionaryHoldsCoordinates(c: Campus)
    ensures HoldsCoordinates(CampusAsDictionary(c), c)
  {
  }

  /** The decoder reads back any document holding the fields of `c`. */
  lemma {:induction false} DecodeFromFields(d: Doc, c: Campus, now: int)
    requires HoldsFixedFields(d, c) && HoldsCoordinates(d, c)
    ensures DecodeCampus(d, now) == Success(c)
  {
    assert GetString(d, Key.id) == Success(c.id);
    assert GetString(d, Key.name) == Success(c.name);
    assert GetString(d, Key.address) == Success(c.address);
    assert GetString(d, Key.city) == Success(c.city);
    assert GetString(d, Key.state) == Success(c.state);
    assert GetString(d, Key.zipCode) == Success(c.zipCode);
    assert GetNumIfPresent(d, Key.latitude) == Success(c.latitude);
    assert GetNumIfPresent(d, Key.longitude) == Success(c.longitude);
    assert GetBoolIfPresent(d, Key.isActive) == Success(Some(c.isActive));
  }

  /** Decoding what `asDictionary` wrote gives back the same campus, when
      the decoder is handed the timestamp as a timestamp. */
  lemma {:induction false} CampusRoundTrip(c: Campus, now: int)
    ensures DecodeCampus(CampusAsDictionary(c), now) == Success(c)
  {
    DictionaryHoldsFixedFields(c);
    DictionaryHoldsCoordinates(c);
    DecodeFromFields(CampusAsDictionary(c), c, now);
  }

  /** The campus repository reads through `JSONSerialization`, which
      accepts no timestamp: the dictionary `asDictionary` writes is
      refused. */
  lemma CampusDictionaryRefusedByJson(c: Campus)
    ensures !JsonSafe(CampusAsDictionary(c))
  {
    DictionaryHoldsFixedFields(c);
    assert !JsonValue(CampusAsDictionary(c)[Key.createdAt]);
  }

  /** A campus that does come through `JSONSerialization` carries the time
      of the read as its creation time. */
  lemma JsonReadCampusStampsNow(d: Doc, now: int)
    requires JsonSafe(d) && DecodeCampus(d, now).Success?
    ensures DecodeCampus(d, now).value.createdAt == now
  {
    if Key.createdAt in d {
      assert JsonValue(d[Key.createdAt]);
    }
  }

  /** `fullAddress`: "address, city, state zipCode". */
  function FullAddress(c: Campus): (s: string)
    ensures |s| == |c.address| + |c.city| + |c.state| + |c.zipCode| + 5
    ensures s[..|c.address|] == c.address
    ensures s[|s| - |c.zipCode|..] == c.zipCode
  {
    c.address + ", " + c.city + ", " + c.state + " " + c.zipCode
  }

  /** The four parts can be read back from the full address at the offsets
      the separators leave. */
  lemma FullAddressParts(c: Campus)
    ensures var s := FullAddress(c);
            var a, ci, st := |c.address|, |c.city|, |c.state|;
            && s[a..a + 2] == ", "
            && s[a + 2..a + 2 + ci] == c.city
            && s[a + 2 + ci..a + 4 + ci] == ", "
            && s[a + 4 + ci..a + 4 + ci + st] == c.state
            && s[a + 4 + ci + st] == ' '
  {
  }
}
