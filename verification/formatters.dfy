/** The admin UI's date texts: an absolute date and time, and "how long
    ago" in minutes or hours for recent dates. Parsing and formatting of
    dates are parameters: `parse` is `new Date(s).getTime()` (`None` for
    an invalid date) and `format` is date-fns `format` (`None` when it
    throws on an invalid date). */
module Formatters {
  import opened Wrappers
  import opened Strs

  const Minute: int := 60 * 1000
  const Hour: int := 60 * Minute
  const Day: int := 24 * Hour

  /** `formatDateTime`: a dash for a missing or empty date, the formatted
      date, or the text itself when formatting throws. */
  function FormatDateTime(date: Option<string>, format: string -> Option<string>): (r: string)
    ensures date.None? || date == Some("") ==> r == "—"
    ensures date.Some? && date.value != "" && format(date.value).None? ==> r == date.value
    ensures date.Some? && date.value != "" && format(date.value).Some? ==> r == format(date.value).value
  {
    if date.None? || date.value == "" then "—"
    else match format(date.value)
      case None => date.value
      case Some(t) => t
  }

  /** Which text `formatRelative` chooses. */
  datatype Ago = Unknown | JustNow | MinutesAgo(minutes: nat) | HoursAgo(hours: nat) | Absolute

  /** The choice for `now - date`; a date that does not parse compares as
      NaN, so it falls through to the absolute format. */
  function AgoOf(date: Option<string>, now: int, parse: string -> Option<int>): (a: Ago)
    ensures a == Unknown <==> date.None? || date == Some("")
    ensures a == JustNow <==> date.Some? && date.value != "" && parse(date.value).Some? && now - parse(date.value).value < Minute
    ensures a.MinutesAgo? ==> (date.Some? && parse(date.value).Some? && 1 <= a.minutes <= 59
      && a.minutes * Minute <= now - parse(date.value).value < (a.minutes + 1) * Minute)
    ensures a.HoursAgo? ==> (date.Some? && parse(date.value).Some? && 1 <= a.hours <= 23
      && a.hours * Hour <= now - parse(date.value).value < (a.hours + 1) * Hour)
    ensures a == Absolute <==> date.Some? && date.value != "" && (parse(date.value).None? || now - parse(date.value).value >= Day)
  {
    if date.None? || date.value == "" then Unknown
    else match parse(date.value)
      case None => Absolute
      case Some(t) =>
        var diff := now - t;
        if diff < Minute then JustNow
        else if diff < Hour then MinutesAgo(diff / Minute)
        else if diff < Day then HoursAgo(diff / Hour)
        else Absolute
  }

  /** `formatRelative`. */
  function FormatRelative(date: Option<string>, now: int, parse: string -> Option<int>, format: string -> Option<string>): (r: string)
    ensures AgoOf(date, now, parse) == Unknown ==> r == "неизвестно"
    ensures AgoOf(date, now, parse) == JustNow ==> r == "только что"
    ensures AgoOf(date, now, parse).MinutesAgo? ==> r == NatToString(AgoOf(date, now, parse).minutes) + " мин назад"
    ensures AgoOf(date, now, parse).HoursAgo? ==> r == NatToString(AgoOf(date, now, parse).hours) + " ч назад"
    ensures AgoOf(date, now, parse) == Absolute ==> r == FormatDateTime(date, format)
  {
    match AgoOf(date, now, parse)
    case Unknown => "неизвестно"
    case JustNow => "только что"
    case MinutesAgo(m) => NatToString(m) + " мин назад"
    case HoursAgo(h) => NatToString(h) + " ч назад"
    case Absolute => FormatDateTime(date, format)
  }

  /** A date in the future, however far, reads "just now". */
  lemma FutureIsJustNow(date: string, now: int, parse: string -> Option<int>)
    requires date != "" && parse(date).Some? && parse(date).value > now
    ensures AgoOf(Some(date), now, parse) == JustNow
  {
  }

  /** The buckets are ordered: a later `now` never reads as more recent. */
  lemma AgoMonotone(date: string, now: int, later: int, parse: string -> Option<int>)
    requires date != "" && parse(date).Some? && now <= later
    ensures AgoOf(Some(date), now, parse).MinutesAgo? && AgoOf(Some(date), later, parse).MinutesAgo?
      ==> AgoOf(Some(date), now, parse).minutes <= AgoOf(Some(date), later, parse).minutes
    ensures AgoOf(Some(date), later, parse) == JustNow ==> AgoOf(Some(date), now, parse) == JustNow
  {
    var t := parse(date).value;
    if now - t >= Minute && later - t < Hour {
      MinutesMonotone(now - t, later - t);
    }
  }

  lemma MinutesMonotone(a: int, b: int)
    requires 0 <= a <= b
    ensures a / Minute <= b / Minute
  {
    var qa := a / Minute;
    var qb := b / Minute;
    assert qa * Minute <= a && b < qb * Minute + Minute;
  }
}
