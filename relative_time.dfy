/**
 * `formatRelativeTime` (src/shared/utils/time.ts): how long ago a timestamp
 * was, in the coarsest of four buckets.
 *
 * Dates are integer milliseconds since the epoch. Parsing the timestamp is an
 * input (`None` when `new Date` yields NaN), so is the current time, and the
 * Korean month/day rendering of `Intl.DateTimeFormat` with its dot clean-up
 * is a function parameter.
 */
module RelativeTime {
  import opened Wrappers
  import Text

  const MinuteMs := 60 * 1000
  const HourMs := 60 * 60 * 1000
  const DayMs := 24 * HourMs

  const JustNowText := "방금 전"
  const MinutesSuffix := "분 전"
  const HoursSuffix := "시간 전"

  /** Which branch of `formatRelativeTime` a timestamp takes. */
  datatype Bucket =
    | JustNow
    | MinutesAgo(minutes: int)
    | HoursAgo(hours: int)
    | CalendarDay(created: int)

  /** The branch taken for a difference of `diff` milliseconds between now and the parsed timestamp. */
  function BucketOf(created: int, now: int): (b: Bucket)
    ensures b.JustNow? <==> now - created <= MinuteMs
    ensures b.MinutesAgo? <==> MinuteMs < now - created < HourMs
    ensures b.HoursAgo? <==> HourMs <= now - created < DayMs
    ensures b.CalendarDay? <==> now - created >= DayMs
    ensures b.MinutesAgo? ==> 1 <= b.minutes <= 59 && b.minutes * MinuteMs <= now - created < (b.minutes + 1) * MinuteMs
    ensures b.HoursAgo? ==> 1 <= b.hours <= 23 && b.hours * HourMs <= now - created < (b.hours + 1) * HourMs
    ensures b.CalendarDay? ==> b.created == created
  {
    var diff := now - created;
    if diff <= MinuteMs then JustNow
    else
      // `diff` is positive here, so Dafny's division is `Math.floor` of the quotient.
      var minutes := diff / MinuteMs;
      if minutes < 60 then MinutesAgo(minutes)
      else
        var hours := diff / HourMs;
        if hours < 24 then HoursAgo(hours)
        else CalendarDay(created)
  }

  /** A numeric rank of the buckets, coarser buckets ranking higher. */
  function Rank(b: Bucket): (r: nat) {
    match b
    case JustNow => 0
    case MinutesAgo(_) => 1
    case HoursAgo(_) => 2
    case CalendarDay(_) => 3
  }

  /** An older timestamp never lands in a finer bucket, nor shows a smaller count in the same one. */
  lemma BucketMonotone(c1: int, c2: int, now: int)
    requires c2 <= c1
    ensures Rank(BucketOf(c1, now)) <= Rank(BucketOf(c2, now))
    ensures BucketOf(c1, now).MinutesAgo? && BucketOf(c2, now).MinutesAgo? ==>
              BucketOf(c1, now).minutes <= BucketOf(c2, now).minutes
    ensures BucketOf(c1, now).HoursAgo? && BucketOf(c2, now).HoursAgo? ==>
              BucketOf(c1, now).hours <= BucketOf(c2, now).hours
  {
  }

  /**
   * The text of a bucket: a fixed phrase, a count's decimal text (`${n}`)
   * followed by its unit, or the formatted calendar day.
   */
  function Render(b: Bucket, formatMonthDay: int -> string): (text: string)
    ensures b.JustNow? ==> text == JustNowText
    ensures b.MinutesAgo? ==>
              && |text| > |MinutesSuffix|
              && text[|text| - |MinutesSuffix|..] == MinutesSuffix
              && text[..|text| - |MinutesSuffix|] == Text.IntString(b.minutes)
    ensures b.HoursAgo? ==>
              && |text| > |HoursSuffix|
              && text[|text| - |HoursSuffix|..] == HoursSuffix
              && text[..|text| - |HoursSuffix|] == Text.IntString(b.hours)
    ensures b.CalendarDay? ==> text == formatMonthDay(b.created)
  {
    match b
    case JustNow => JustNowText
    case MinutesAgo(m) => Text.IntString(m) + MinutesSuffix
    case HoursAgo(h) => Text.IntString(h) + HoursSuffix
    case CalendarDay(created) => formatMonthDay(created)
  }

  /**
   * `formatRelativeTime(createdAt)`: the input itself when it does not parse,
   * otherwise the text of its bucket.
   */
  function FormatRelativeTime(createdAt: string, parsed: Option<int>, now: int, formatMonthDay: int -> string): (text: string)
    ensures parsed.None? ==> text == createdAt
    ensures parsed.Some? && now - parsed.value <= MinuteMs ==> text == JustNowText
    ensures parsed.Some? && MinuteMs < now - parsed.value < HourMs ==>
              text == Text.IntString((now - parsed.value) / MinuteMs) + MinutesSuffix
    ensures parsed.Some? && HourMs <= now - parsed.value < DayMs ==>
              text == Text.IntString((now - parsed.value) / HourMs) + HoursSuffix
    ensures parsed.Some? && now - parsed.value >= DayMs ==> text == formatMonthDay(parsed.value)
  {
    match parsed
    case None => createdAt
    case Some(created) => Render(BucketOf(created, now), formatMonthDay)
  }

  /**
   * Apart from the calendar form, whose text the date formatter decides, a
   * rendered text names its bucket and count: different buckets or counts
   * never read the same.
   */
  lemma RenderInjective(b1: Bucket, b2: Bucket, f: int -> string)
    requires !b1.CalendarDay? && !b2.CalendarDay?
    requires Render(b1, f) == Render(b2, f)
    ensures b1 == b2
  {
    var t := Render(b1, f);
    assert |t| >= 4;
    // The third character from the end tells the three forms apart.
    assert t[|t| - 3] == (match b1 case JustNow => '금' case MinutesAgo(_) => '분' case _ => '간');
    assert t[|t| - 3] == (match b2 case JustNow => '금' case MinutesAgo(_) => '분' case _ => '간');
    match b1
    case JustNow =>
    case MinutesAgo(m1) =>
      var m2 := b2.minutes;
      assert Text.IntString(m1) == t[..|t| - |MinutesSuffix|] == Text.IntString(m2);
      Text.IntStringInjective(m1, m2);
    case HoursAgo(h1) =>
      var h2 := b2.hours;
      assert Text.IntString(h1) == t[..|t| - |HoursSuffix|] == Text.IntString(h2);
      Text.IntStringInjective(h1, h2);
  }
}
