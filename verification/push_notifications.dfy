/** `PushNotificationManager`: the permission status it publishes, the APNs
    token string, the push-token upload guard, the payload of a local
    notification and the routing of a tapped one. The notification centre,
    Firebase Messaging and the repository are inputs. */
module PushNotifications {

  import opened Wrappers
  import opened Text

  datatype PermissionStatus = NotDetermined | Authorized | Denied

  /** The platform's authorisation status. */
  datatype PlatformStatus = PlatformNotDetermined | PlatformDenied | PlatformAuthorized
                          | PlatformProvisional | PlatformEphemeral

  /** `checkPermissionStatus()`: authorised and denied carry over, every
      other platform status reads as not determined. */
  function FromPlatform(p: PlatformStatus): (s: PermissionStatus)
    ensures s == Authorized <==> p == PlatformAuthorized
    ensures s == Denied <==> p == PlatformDenied
  {
    match p
    case PlatformAuthorized => Authorized
    case PlatformDenied => Denied
    case PlatformNotDetermined => NotDetermined
    case _ => NotDetermined
  }

  /** `requestPermission()`, given the user's answer or the request's
      error: the status, the returned flag, and whether remote
      notifications are registered. */
  function RequestPermission(answer: Result<bool, string>): (r: (PermissionStatus, bool, bool))
    ensures r.1 <==> answer == Success(true)
    ensures r.0 == (if r.1 then Authorized else Denied)
    ensures r.2 == r.1
  {
    var granted := answer == Success(true);
    (if granted then Authorized else Denied, granted, granted)
  }

  // ---------------------------------------------------------- the APNs token

  /** The token as `handleAPNsToken(_:)` writes it: each byte as two
      lowercase hex digits, in byte order. */
  function HexEncode(bytes: seq<byte>): (s: string)
    ensures |s| == 2 * |bytes|
  {
    if |bytes| == 0 then [] else ByteToHex(bytes[0]) + HexEncode(bytes[1..])
  }

  /** Reads a string of hex-digit pairs back into bytes. */
  function HexDecode(s: string): Option<seq<byte>>
    decreases |s|
  {
    if |s| == 0 then Some([])
    else if |s| == 1 || !IsHexDigit(s[0]) || !IsHexDigit(s[1]) then None
    else
      var rest :- HexDecode(s[2..]);
      Some([(16 * HexValue(s[0]) + HexValue(s[1])) as byte] + rest)
  }

  /** The token string determines the device token: decoding gives the
      bytes back. */
  lemma {:induction false} HexRoundTrip(bytes: seq<byte>)
    ensures HexDecode(HexEncode(bytes)) == Some(bytes)
  {
    if |bytes| > 0 {
      var s := HexEncode(bytes);
      var h := ByteToHex(bytes[0]);
      assert s == h + HexEncode(bytes[1..]);
      assert s[0] == h[0] && s[1] == h[1];
      assert s[2..] == HexEncode(bytes[1..]);
      HexRoundTrip(bytes[1..]);
      assert [bytes[0]] + bytes[1..] == bytes;
    }
  }

  /** Byte `i` of the device token is digits `2i` and `2i + 1` of the
      token string. */
  lemma {:induction false} HexEncodePairs(bytes: seq<byte>, i: int)
    requires 0 <= i < |bytes|
    ensures HexEncode(bytes)[2 * i..2 * i + 2] == ByteToHex(bytes[i])
  {
    var h := ByteToHex(bytes[0]);
    assert HexEncode(bytes) == h + HexEncode(bytes[1..]);
    if i > 0 {
      HexEncodePairs(bytes[1..], i - 1);
      assert HexEncode(bytes)[2 * i..2 * i + 2] == HexEncode(bytes[1..])[2 * (i - 1)..2 * (i - 1) + 2];
    }
  }

  /** `handleAPNsToken(_:)`: the token built one byte at a time. */
  method HandleAPNsToken(deviceToken: seq<byte>) returns (token: string)
    ensures |token| == 2 * |deviceToken|
    ensures forall i :: 0 <= i < |deviceToken| ==> token[2 * i..2 * i + 2] == ByteToHex(deviceToken[i])
    ensures token == HexEncode(deviceToken)
  {
    token := [];
    var k := 0;
    while k < |deviceToken|
      invariant 0 <= k <= |deviceToken| && |token| == 2 * k
      invariant token + HexEncode(deviceToken[k..]) == HexEncode(deviceToken)
    {
      var h := ByteToHex(deviceToken[k]);
      assert HexEncode(deviceToken[k..]) == h + HexEncode(deviceToken[k + 1..]);
      token := token + h;
      k := k + 1;
    }
    assert deviceToken[k..] == [];
    forall i | 0 <= i < |deviceToken|
      ensures token[2 * i..2 * i + 2] == ByteToHex(deviceToken[i])
    {
      HexEncodePairs(deviceToken, i);
    }
  }

  // ------------------------------------------------------------- push tokens

  /** A `updatePushToken(uid:token:)` call on the user repository. */
  datatype TokenWrite = TokenWrite(uid: string, token: string)

  const NoTokenMessage: string := "FCM token not available"

  /** `updatePushToken(for:)`: without an FCM token it fails and writes
      nothing; otherwise the token is written and the write's outcome
      returned. */
  function UpdatePushToken(fcmToken: Option<string>, userId: string, write: Outcome<string>)
    : (r: (Outcome<string>, seq<TokenWrite>))
    ensures |r.1| <= 1 && (r.1 != [] <==> fcmToken.Some?)
    ensures forall w :: w in r.1 ==> fcmToken.Some? && w == TokenWrite(userId, fcmToken.value)
    ensures r.0.Pass? <==> fcmToken.Some? && write.Pass?
    ensures fcmToken.None? ==> r.0 == Fail(NoTokenMessage)
    ensures fcmToken.Some? ==> r.0 == write
  {
    match fcmToken
    case None => (Fail(NoTokenMessage), [])
    case Some(t) => (write, [TokenWrite(userId, t)])
  }

  // ------------------------------------------------------ local notifications

  /** A `userInfo` value: a string, or anything else. */
  datatype InfoValue = InfoString(s: string) | InfoOther

  datatype Content = Content(title: string, body: string, badge: int, userInfo: map<string, InfoValue>)

  /** The content `scheduleLocalNotification(title:body:eventId:delay:)`
      schedules: badge 1, and the event routing keys only for an event. */
  function LocalNotification(title: string, body: string, eventId: Option<string>): (c: Content)
    ensures c.title == title && c.body == body && c.badge == 1
    ensures eventId.None? ==> c.userInfo == map[]
    ensures eventId.Some? ==> c.userInfo.Keys == {"eventId", "type"}
    ensures eventId.Some? ==> c.userInfo["eventId"] == InfoString(eventId.value)
    ensures eventId.Some? ==> c.userInfo["type"] == InfoString("event")
  {
    var info := if eventId.Some? then map["eventId" := InfoString(eventId.value), "type" := InfoString("event")]
                else map[];
    Content(title, body, 1, info)
  }

  /** `handleNotificationResponse(_:completion:)`: the event id posted, if
      any, and that the completion handler runs, which it always does. An
      id is posted only when both keys hold strings and the type is
      "event". */
  function HandleNotificationResponse(userInfo: map<string, InfoValue>): (r: (Option<string>, bool))
    ensures r.1
    ensures r.0.Some? <==>
              "eventId" in userInfo && userInfo["eventId"].InfoString?
              && "type" in userInfo && userInfo["type"] == InfoString("event")
    ensures r.0.Some? ==> userInfo["eventId"] == InfoString(r.0.value)
  {
    if "eventId" in userInfo && userInfo["eventId"].InfoString?
       && "type" in userInfo && userInfo["type"] == InfoString("event")
    then (Some(userInfo["eventId"].s), true)
    else (None, true)
  }

  /** Tapping a local notification posts exactly the event it was
      scheduled for, and nothing for one scheduled without an event. */
  lemma LocalNotificationRoutes(title: string, body: string, eventId: Option<string>)
    ensures HandleNotificationResponse(LocalNotification(title, body, eventId).userInfo).0 == eventId
  {
  }
}
