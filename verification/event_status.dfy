/** `EventStatus`: where an event stands relative to the current time. */
module EventStatus {

  datatype Status = Upcoming | Live | Expired

  /** `displayName`. */
  function DisplayName(st: Status): string
  {
    match st
    case Upcoming => "Upcoming"
    case Live => "Live"
    case Expired => "Expired"
  }

  /** The three display names are pairwise distinct, so a name identifies
      its status. */
  lemma DisplayNamesDistinct(a: Status, b: Status)
    ensures DisplayName(a) == DisplayName(b) <==> a == b
  {
  }

  /** `EventStatus.calculate(startTime:endTime:now:)`. Upcoming strictly
      before the start, live from the start up to and including the end,
      expired afterwards; an event whose end precedes its start is never
      live. */
  function Calculate(start: int, end: int, now: int): (st: Status)
    ensures st == Upcoming <==> now < start
    ensures st == Live <==> start <= now && now <= end
    ensures st == Expired <==> start <= now && end < now
    ensures end < start ==> st != Live
  {
    if now < start then Upcoming
    else if now >= start && now <= end then Live
    else Expired
  }

  /** Position of a status on the time line. */
  function Rank(st: Status): nat
  {
    match st
    case Upcoming => 0
    case Live => 1
    case Expired => 2
  }

  /** As time passes a status only moves forward: upcoming, then live, then
      expired. This holds even for an event whose end precedes its start,
      which jumps from upcoming straight to expired. */
  lemma StatusMonotone(start: int, end: int, now1: int, now2: int)
    requires now1 <= now2
    ensures Rank(Calculate(start, end, now1)) <= Rank(Calculate(start, end, now2))
  {
  }

  /** A well-formed event is live at some instant: at its start. */
  lemma LiveAtStart(start: int, end: int)
    requires start <= end
    ensures Calculate(start, end, start) == Live
  {
  }

  /** An event that starts and ends at the current instant is live. */
  lemma InstantEventIsLive(t: int)
    ensures Calculate(t, t, t) == Live
  {
  }
}
