/** `StudentHomeViewModel`: the event feed for the selected campus, the
    remaining-time label and the status badge colours. */
module StudentHome {

  import opened Wrappers
  import opened Text
  import opened Seqs
  import opened EventStatus
  import opened Events

  datatype Feed = Feed(
    events: seq<Event>,
    isLoading: bool,
    errorMessage: Option<string>,
    selectedCampusId: Option<string>,
    /** The campus whose event listener is registered, if any. */
    listening: Option<string>)

  /** `startListeningToEvents()`: the previous listener is removed; without
      a selected campus the feed empties and no listener is registered;
      otherwise loading starts and a listener for that campus is registered. */
  function StartListening(f: Feed): (r: Feed)
    ensures r.selectedCampusId == f.selectedCampusId
    ensures r.listening == f.selectedCampusId
    ensures f.selectedCampusId.None? ==> r == f.(events := [], listening := None)
    ensures f.selectedCampusId.Some? ==>
              r == f.(isLoading := true, errorMessage := None, listening := f.selectedCampusId)
  {
    match f.selectedCampusId
    case None => f.(events := [], listening := None)
    case Some(id) => f.(isLoading := true, errorMessage := None, listening := Some(id))
  }

  /** The feed drops the events that have ended by `now`. */
  function NotExpired(now: int): Event -> bool
  {
    e => StatusAt(e, now) != Expired
  }

  /** A snapshot delivered to the registered listener at time `now`:
      loading ends; the events that have not ended replace the feed, in
      the order delivered; a failure only sets the message. Without a
      registered listener nothing is delivered. */
  function Deliver(f: Feed, result: Result<seq<Event>, string>, now: int): (r: Feed)
    ensures f.listening.None? ==> r == f
    ensures f.listening.Some? && result.Success? ==>
              (forall e :: e in r.events <==> e in result.value && (now < e.startTime || now <= e.endTime))
    ensures f.listening.Some? && result.Success? ==> r.errorMessage.None? && !r.isLoading
    ensures f.listening.Some? && result.Failure? ==>
              r == f.(isLoading := false, errorMessage := Some(result.error))
  {
    if f.listening.None? then f
    else match result
      case Success(events) => f.(isLoading := false, events := Filter(events, NotExpired(now)), errorMessage := None)
      case Failure(message) => f.(isLoading := false, errorMessage := Some(message))
  }

  /** The feed keeps the relative order of what was delivered: delivering
      two batches back to back keeps the first batch's events first. */
  lemma {:induction false} DeliverKeepsOrder(f: Feed, a: seq<Event>, b: seq<Event>, now: int)
    requires f.listening.Some?
    ensures Deliver(f, Success(a + b), now).events
         == Deliver(f, Success(a), now).events + Deliver(f, Success(b), now).events
  {
    FilterAppend(a, b, NotExpired(now));
  }

  /** Euclidean division of a non-negative dividend rounds down. */
  lemma DivRoundsDown(a: int, b: int)
    requires a >= 0 && b > 0
    ensures 0 <= (a / b) * b <= a < (a / b) * b + b
  {
    var q, m := a / b, a % b;
    assert q * b + m == a && 0 <= m < b;
  }

  /** Swift's `/` on `Int`, which truncates toward zero (Dafny's `/` floors
      for a positive divisor). */
  function TruncDiv(a: int, b: int): (q: int)
    requires b > 0
    ensures a >= 0 ==> 0 <= q * b <= a < q * b + b
    ensures a < 0 ==> q * b - b < a <= q * b <= 0
  {
    if a >= 0 then
      DivRoundsDown(a, b);
      a / b
    else
      var q := (-a) / b;
      DivRoundsDown(-a, b);
      assert (-q) * b == -(q * b);
      -q
  }

  /** Swift's `%` on `Int`: the remainder takes the sign of the dividend. */
  function TruncMod(a: int, b: int): (m: int)
    requires b > 0
    ensures a == TruncDiv(a, b) * b + m
    ensures a >= 0 ==> 0 <= m < b
    ensures a < 0 ==> -b < m <= 0
  {
    a - TruncDiv(a, b) * b
  }

  /** Hours and minutes of an interval in seconds, as `formatTimeInterval`
      computes them. For a non-negative interval the minutes lie in 0..59
      and the pair rounds the interval down to the whole minute. */
  function HoursMinutes(t: int): (hm: (int, int))
    ensures t >= 0 ==> hm.0 >= 0 && 0 <= hm.1 < 60
    ensures t >= 0 ==> 3600 * hm.0 + 60 * hm.1 <= t < 3600 * hm.0 + 60 * hm.1 + 60
    ensures hm.0 > 0 <==> t >= 3600
    ensures hm.0 <= 0 && hm.1 > 0 <==> 60 <= t < 3600
  {
    (TruncDiv(t, 3600), TruncDiv(TruncMod(t, 3600), 60))
  }

  /** `formatTimeInterval(_:prefix:)`: "<prefix> Hh Mm" from an hour on,
      "<prefix> Mm" from a minute on, and "<prefix> < 1m" below a minute
      (which includes every negative interval). */
  function FormatTimeInterval(t: int, prefix: string): (r: string)
    ensures |r| > |prefix| + 1 && r[..|prefix| + 1] == prefix + " "
    ensures r == prefix + " < 1m" <==> t < 60
    ensures r[|r| - 1] == 'm'
  {
    var (h, m) := HoursMinutes(t);
    if h > 0 then
      var r := prefix + " " + NatToDecimal(h) + "h " + NatToDecimal(m) + "m";
      assert r[|prefix| + 1] == NatToDecimal(h)[0] != (prefix + " < 1m")[|prefix| + 1];
      r
    else if m > 0 then
      var r := prefix + " " + NatToDecimal(m) + "m";
      assert r[|prefix| + 1] == NatToDecimal(m)[0] != (prefix + " < 1m")[|prefix| + 1];
      r
    else prefix + " < 1m"
  }

  /** The digits shown for minutes read back as the minutes of the interval. */
  lemma {:induction false} MinutesLabelReadsBack(t: int, prefix: string)
    requires 60 <= t < 3600
    ensures var digits := NatToDecimal(HoursMinutes(t).1);
            FormatTimeInterval(t, prefix) == prefix + " " + digits + "m"
            && DecimalValue(digits) * 60 <= t < DecimalValue(digits) * 60 + 60
  {
    var (h, m) := HoursMinutes(t);
    DecimalRoundTrip(m);
  }

  /** From an hour on, the label shows hours and minutes whose digits read
      back as the whole hours and the remaining whole minutes of the
      interval. */
  lemma {:induction false} HoursLabelReadsBack(t: int, prefix: string)
    requires t >= 3600
    ensures var (h, m) := HoursMinutes(t);
            var hours, minutes := NatToDecimal(h), NatToDecimal(m);
            && FormatTimeInterval(t, prefix) == prefix + " " + hours + "h " + minutes + "m"
            && 0 <= DecimalValue(minutes) < 60
            && 3600 * DecimalValue(hours) + 60 * DecimalValue(minutes) <= t
            && t < 3600 * DecimalValue(hours) + 60 * DecimalValue(minutes) + 60
  {
    var (h, m) := HoursMinutes(t);
    DecimalRoundTrip(h);
    DecimalRoundTrip(m);
  }

  /** `getRemainingTime(for:)` at `now`: time to the start for an upcoming
      event, time to the end for a live one, "Ended" otherwise. */
  function RemainingTime(e: Event, now: int): (r: string)
    ensures r == "Ended" <==> StatusAt(e, now) == Expired
    ensures StatusAt(e, now) == Upcoming ==> r == FormatTimeInterval(e.startTime - now, "Starts in")
    ensures StatusAt(e, now) == Live ==> r == FormatTimeInterval(e.endTime - now, "Ends in")
  {
    match StatusAt(e, now)
    case Upcoming => FormatTimeInterval(e.startTime - now, "Starts in")
    case Live => FormatTimeInterval(e.endTime - now, "Ends in")
    case Expired => "Ended"
  }

  /** A live event in its last minute reads "Ends in < 1m". */
  lemma LastMinuteLabel(e: Event, now: int)
    requires e.startTime <= now <= e.endTime < now + 60
    ensures RemainingTime(e, now) == "Ends in < 1m"
  {
  }

  /** `getStatusBadgeColor(for:)`: (background, text) hex colours. */
  function BadgeColor(st: Status): (c: (string, string))
    ensures c.1 == "#FFFFFF"
    ensures |c.0| == 7 && c.0[0] == '#'
  {
    match st
    case Live => ("#34C759", "#FFFFFF")
    case Upcoming => ("#FF9500", "#FFFFFF")
    case Expired => ("#8E8E93", "#FFFFFF")
  }

  /** Each status has its own background colour. */
  lemma BadgeBackgroundsDistinct(a: Status, b: Status)
    ensures BadgeColor(a).0 == BadgeColor(b).0 <==> a == b
  {
  }
}
