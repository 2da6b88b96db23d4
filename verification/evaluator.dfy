/** The reminder rule: a product's lead-time setting names exactly one
    days-left value on which the reminder fires. */
module Evaluator {
  import opened Common
  import opened Expiry

  /** The lead-time settings the evaluator recognises, plus every other string
      (such as the page's `5_minutes_before`), kept verbatim. */
  datatype Frequency =
    | OneMonthBefore
    | OneWeekBefore
    | FiveDaysBefore
    | TwoDaysBefore
    | OneDayBefore
    | SameDay
    | Unknown(raw: string)

  /** The string the user interface stores for each setting. */
  function FrequencyName(f: Frequency): string
  {
    match f
    case OneMonthBefore => "1_month_before"
    case OneWeekBefore => "1_week_before"
    case FiveDaysBefore => "5_days_before"
    case TwoDaysBefore => "2_days_before"
    case OneDayBefore => "1_day_before"
    case SameDay => "same_day"
    case Unknown(raw) => raw
  }

  /** The six names the evaluator's switch recognises. */
  const KnownNames: seq<string> :=
    ["1_month_before", "1_week_before", "5_days_before", "2_days_before", "1_day_before", "same_day"]

  /** Reads a stored setting; any string that is not one of the six names is `Unknown`. */
  function ParseFrequency(s: string): (f: Frequency)
    ensures FrequencyName(f) == s
    ensures f.Unknown? <==> s !in KnownNames
  {
    if s == "1_month_before" then OneMonthBefore
    else if s == "1_week_before" then OneWeekBefore
    else if s == "5_days_before" then FiveDaysBefore
    else if s == "2_days_before" then TwoDaysBefore
    else if s == "1_day_before" then OneDayBefore
    else if s == "same_day" then SameDay
    else Unknown(s)
  }

  /** A setting is well formed when an `Unknown` one does not hide a known name. */
  predicate WellFormed(f: Frequency)
  {
    f.Unknown? ==> f.raw !in KnownNames
  }

  /** Lead-time table: the one days-left value on which each setting fires. */
  function LeadDays(f: Frequency): Option<nat>
  {
    match f
    case OneMonthBefore => Some(30)
    case OneWeekBefore => Some(7)
    case FiveDaysBefore => Some(5)
    case TwoDaysBefore => Some(2)
    case OneDayBefore => Some(1)
    case SameDay => Some(0)
    case Unknown(_) => None
  }

  /** Whether the setting fires at this days-left value, read off the table. */
  predicate IsDue(daysLeft: DayCount, f: Frequency)
  {
    LeadDays(f).Some? && daysLeft == Days(LeadDays(f).value)
  }

  /** The evaluator's switch over the stored string: each known name fires only
      on exact equality with its day count, and every other string never fires. */
  function ShouldSendNotification(daysLeft: DayCount, frequency: string): (r: bool)
    ensures r <==> IsDue(daysLeft, ParseFrequency(frequency))
    ensures r ==> daysLeft.Days?
  {
    if frequency == "1_month_before" then daysLeft == Days(30)
    else if frequency == "1_week_before" then daysLeft == Days(7)
    else if frequency == "5_days_before" then daysLeft == Days(5)
    else if frequency == "2_days_before" then daysLeft == Days(2)
    else if frequency == "1_day_before" then daysLeft == Days(1)
    else if frequency == "same_day" then daysLeft == Days(0)
    else false
  }

  /** Parsing inverts naming on every well-formed setting. */
  lemma ParseName(f: Frequency)
    requires WellFormed(f)
    ensures ParseFrequency(FrequencyName(f)) == f
  {
  }

  /** For a known setting with lead time n, the reminder fires exactly when n
      days are left, and never at any other count. */
  lemma FiresExactlyOnLeadDay(f: Frequency, d: int)
    requires LeadDays(f).Some?
    ensures ShouldSendNotification(Days(d), FrequencyName(f)) <==> d == LeadDays(f).value
  {
    assert ParseFrequency(FrequencyName(f)) == f;
  }

  /** A string outside the six names never fires, whatever the day count. */
  lemma UnknownNeverFires(frequency: string, daysLeft: DayCount)
    requires ParseFrequency(frequency).Unknown?
    ensures !ShouldSendNotification(daysLeft, frequency)
  {
  }

  /** The page's `5_minutes_before` option is not a setting the evaluator knows. */
  lemma FiveMinutesNeverFires(daysLeft: DayCount)
    ensures ParseFrequency("5_minutes_before") == Unknown("5_minutes_before")
    ensures !ShouldSendNotification(daysLeft, "5_minutes_before")
  {
  }

  /** An unparsable expiry date never fires. */
  lemma NotANumberNeverFires(frequency: string)
    ensures !ShouldSendNotification(NotANumber, frequency)
  {
  }

  /** Each setting fires on at most one day count. */
  lemma FiresOnAtMostOneDay(frequency: string, a: DayCount, b: DayCount)
    requires ShouldSendNotification(a, frequency) && ShouldSendNotification(b, frequency)
    ensures a == b
  {
  }
}
