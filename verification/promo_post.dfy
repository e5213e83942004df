/** `PromoPost`: an organizer's promotional post, with its memberwise
    initialiser, the document decoder and `asDictionary`. */
module Promos {

  import opened Wrappers
  import opened Document

  datatype PromoPost = PromoPost(
    id: string,
    title: string,
    content: string,
    imageUrl: Option<string>,
    campusId: string,
    organizerId: string,
    organizerName: string,
    isApproved: bool,
    isPinned: bool,
    createdAt: int,
    updatedAt: int)

  /** The memberwise initialiser; `id` stands for the generated UUID string
      and both timestamps default to `now`. */
  function NewPromo(
    id: string,
    title: string,
    content: string,
    campusId: string,
    organizerId: string,
    organizerName: string,
    now: int,
    imageUrl: Option<string> := None,
    isApproved: bool := false,
    isPinned: bool := false): (p: PromoPost)
    ensures p.id == id && p.title == title && p.content == content && p.imageUrl == imageUrl
    ensures p.campusId == campusId && p.organizerId == organizerId && p.organizerName == organizerName
    ensures p.isApproved == isApproved && p.isPinned == isPinned
    ensures p.createdAt == now && p.updatedAt == now
  {
    PromoPost(id, title, content, imageUrl, campusId, organizerId, organizerName,
              isApproved, isPinned, now, now)
  }

  /** Without the optional arguments a new post is neither approved nor
      pinned and has no image. */
  lemma NewPromoDefaults(id: string, title: string, content: string, campusId: string,
                         organizerId: string, organizerName: string, now: int)
    ensures !NewPromo(id, title, content, campusId, organizerId, organizerName, now).isApproved
    ensures !NewPromo(id, title, content, campusId, organizerId, organizerName, now).isPinned
    ensures NewPromo(id, title, content, campusId, organizerId, organizerName, now).imageUrl.None?
  {
  }

  /** The documents `init(from:)` accepts: the six strings are present,
      and `imageUrl`, `isApproved` and `isPinned` are absent, null or of
      their type. */
  ghost predicate PromoDecodable(d: Doc)
  {
    && Key.id in d && d[Key.id].Str?
    && Key.title in d && d[Key.title].Str?
    && Key.content in d && d[Key.content].Str?
    && Key.campusId in d && d[Key.campusId].Str?
    && Key.organizerId in d && d[Key.organizerId].Str?
    && Key.organizerName in d && d[Key.organizerName].Str?
    && OptionalStringOk(d, Key.imageUrl)
    && OptionalBoolOk(d, Key.isApproved)
    && OptionalBoolOk(d, Key.isPinned)
  }

  /** `p` is the post `init(from:)` builds from `d` at `now`: the strings as
      stored, the image when stored, both flags false unless stored, and
      each timestamp as stored or else `now`. */
  ghost predicate ReadsPromo(d: Doc, now: int, p: PromoPost)
  {
    && ReadsString(d, Key.id, p.id)
    && ReadsString(d, Key.title, p.title)
    && ReadsString(d, Key.content, p.content)
    && ReadsString(d, Key.campusId, p.campusId)
    && ReadsString(d, Key.organizerId, p.organizerId)
    && ReadsString(d, Key.organizerName, p.organizerName)
    && ReadsOptionalString(d, Key.imageUrl, p.imageUrl)
    && ReadsFlag(d, Key.isApproved, false, p.isApproved)
    && ReadsFlag(d, Key.isPinned, false, p.isPinned)
    && ReadsTime(d, Key.createdAt, now, p.createdAt)
    && ReadsTime(d, Key.updatedAt, now, p.updatedAt)
  }

  /** `init(from:)`. It fails exactly when a required string is missing or
      a field has the wrong type; otherwise it reads the post as
      `ReadsPromo` describes. */
  function DecodePromo(d: Doc, now: int): (r: Result<PromoPost, DecodeError>)
    ensures r.Success? <==> PromoDecodable(d)
    ensures r.Success? ==> ReadsPromo(d, now, r.value)
    ensures Key.id !in d ==> r == Failure(KeyNotFound(Key.id))
  {
    var id :- GetString(d, Key.id);
    var title :- GetString(d, Key.title);
    var content :- GetString(d, Key.content);
    var imageUrl :- GetStringIfPresent(d, Key.imageUrl);
    var campusId :- GetString(d, Key.campusId);
    var organizerId :- GetString(d, Key.organizerId);
    var organizerName :- GetString(d, Key.organizerName);
    var isApproved :- GetBoolIfPresent(d, Key.isApproved);
    var isPinned :- GetBoolIfPresent(d, Key.isPinned);
    Success(PromoPost(id, title, content, imageUrl, campusId, organizerId, organizerName,
                      isApproved.GetOr(false), isPinned.GetOr(false),
                      TimestampOr(d, Key.createdAt, now), TimestampOr(d, Key.updatedAt, now)))
  }

  /** The ten keys every post dictionary holds. */
  const PromoFixedKeys: set<Key> :=
    {Key.id, Key.title, Key.content, Key.campusId, Key.organizerId, Key.organizerName,
     Key.isApproved, Key.isPinned, Key.createdAt, Key.updatedAt}

  /** The fixed part of the dictionary. */
  function FixedEntries(p: PromoPost): Doc
  {
    map[Key.id := Str(p.id), Key.title := Str(p.title), Key.content := Str(p.content),
        Key.campusId := Str(p.campusId), Key.organizerId := Str(p.organizerId),
        Key.organizerName := Str(p.organizerName),
        Key.isApproved := Bool(p.isApproved), Key.isPinned := Bool(p.isPinned),
        Key.createdAt := Time(p.createdAt), Key.updatedAt := Time(p.updatedAt)]
  }

  /** `asDictionary`, and equally the document `encode(to:)` writes: the ten
      fixed fields, plus `imageUrl` only when present. */
  function PromoAsDictionary(p: PromoPost): (d: Doc)
    ensures d.Keys <= PromoFixedKeys + {Key.imageUrl}
    ensures Key.imageUrl in d <==> p.imageUrl.Some?
    ensures p.imageUrl.Some? ==> d[Key.imageUrl] == Str(p.imageUrl.value)
  {
    var d := FixedEntries(p);
    if p.imageUrl.Some? then d[Key.imageUrl := Str(p.imageUrl.value)] else d
  }

  /** `d` carries the ten fixed fields of `p`. */
  ghost predicate HoldsFixedFields(d: Doc, p: PromoPost)
  {
    && PromoFixedKeys <= d.Keys
    && d[Key.id] == Str(p.id)
    && d[Key.title] == Str(p.title)
    && d[Key.content] == Str(p.content)
    && d[Key.campusId] == Str(p.campusId)
    && d[Key.organizerId] == Str(p.organizerId)
    && d[Key.organizerName] == Str(p.organizerName)
    && d[Key.isApproved] == Bool(p.isApproved)
    && d[Key.isPinned] == Bool(p.isPinned)
    && d[Key.createdAt] == Time(p.createdAt)
    && d[Key.updatedAt] == Time(p.updatedAt)
  }

  /** The dictionary always holds the ten fixed fields; in particular `id`
      maps to the post's id. */
  lemma DictionaryHoldsFixedFields(p: PromoPost)
    ensures HoldsFixedFields(PromoAsDictionary(p), p)
  {
    var d := FixedEntries(p);
    assert HoldsFixedFields(d, p);
    if p.imageUrl.Some? {
      assert HoldsFixedFields(d[Key.imageUrl := Str(p.imageUrl.value)], p);
    }
  }

  /** The decoder reads back any document holding the fields of `p`. */
  lemma {:induction false} DecodeFromFields(d: Doc, p: PromoPost, now: int)
    requires HoldsFixedFields(d, p)
    requires Key.imageUrl in d <==> p.imageUrl.Some?
    requires p.imageUrl.Some? ==> d[Key.imageUrl] == Str(p.imageUrl.value)
    ensures DecodePromo(d, now) == Success(p)
  {
    assert GetString(d, Key.id) == Success(p.id);
    assert GetString(d, Key.title) == Success(p.title);
    assert GetString(d, Key.content) == Success(p.content);
    assert GetStringIfPresent(d, Key.imageUrl) == Success(p.imageUrl);
    assert GetString(d, Key.campusId) == Success(p.campusId);
    assert GetString(d, Key.organizerId) == Success(p.organizerId);
    assert GetString(d, Key.organizerName) == Success(p.organizerName);
    assert GetBoolIfPresent(d, Key.isApproved) == Success(Some(p.isApproved));
    assert GetBoolIfPresent(d, Key.isPinned) == Success(Some(p.isPinned));
  }

  /** Decoding what `asDictionary` wrote gives back the same post, when the
      decoder is handed the timestamps as timestamps. */
  lemma {:induction false} PromoRoundTrip(p: PromoPost, now: int)
    ensures DecodePromo(PromoAsDictionary(p), now) == Success(p)
  {
    DictionaryHoldsFixedFields(p);
    DecodeFromFields(PromoAsDictionary(p), p, now);
  }

  /** The promo repository reads through `JSONSerialization`, which accepts
      no timestamp: the dictionary `asDictionary` writes is refused. */
  lemma PromoDictionaryRefusedByJson(p: PromoPost)
    ensures !JsonSafe(PromoAsDictionary(p))
  {
    DictionaryHoldsFixedFields(p);
    assert !JsonValue(PromoAsDictionary(p)[Key.createdAt]);
  }

  /** A post that does come through `JSONSerialization` carries the time of
      the read as both of its timestamps. */
  lemma JsonReadPromoStampsNow(d: Doc, now: int)
    requires JsonSafe(d) && DecodePromo(d, now).Success?
    ensures DecodePromo(d, now).value.createdAt == now
    ensures DecodePromo(d, now).value.updatedAt == now
  {
    if Key.createdAt in d {
      assert JsonValue(d[Key.createdAt]);
    }
    if Key.updatedAt in d {
      assert JsonValue(d[Key.updatedAt]);
    }
  }
}
