/**
 * The synchronizer's `_equal`: whether a destination entry already records a
 * Toggl entry. Durations are compared in whole minutes (Python's `round`),
 * the start by day (Redmine) or instant (Jira), the comment literally.
 */
module Equality {
  import opened Wrappers
  import opened Time
  import opened IssueTag
  import opened Entries

  /** Python 3's `round(x)`: the nearest integer, a tie going to the even one. */
  function RoundHalfEven(x: real): (r: int)
    ensures -0.5 <= x - r as real <= 0.5
    ensures (x - r as real == 0.5 || x - r as real == -0.5) ==> r % 2 == 0
  {
    var f := x.Floor;
    var frac := x - f as real;
    if frac < 0.5 then f
    else if frac > 0.5 then f + 1
    else if f % 2 == 0 then f else f + 1
  }

  /** Those two properties single out the rounded value: any integer that has them is it. */
  lemma RoundHalfEvenUnique(x: real, n: int)
    requires -0.5 <= x - n as real <= 0.5
    requires (x - n as real == 0.5 || x - n as real == -0.5) ==> n % 2 == 0
    ensures RoundHalfEven(x) == n
  {
  }

  /** A source duration in whole minutes: `round(seconds / 60)`. */
  function SourceMinutes(seconds: int): int {
    RoundHalfEven(seconds as real / 60.0)
  }

  /** A destination duration in whole minutes: `round(hours * 60)` or `round(seconds / 60)`. */
  function DestMinutes(a: Amount): int {
    match a
    case Hours(h) => RoundHalfEven(h * 60.0)
    case Seconds(s) => SourceMinutes(s)
  }

  /** The day on which the destination entry says the time was spent. */
  function DayOf(w: When): Date {
    match w
    case SpentOn(day) => day
    case Started(instant) => instant.date
  }

  /**
   * The start of a source entry agrees with when the destination entry says
   * the time was spent: the same day for Redmine, the same minute for Jira.
   */
  predicate StartMatches(start: Timestamp, w: When): (r: bool)
    ensures r <==> start.date == DayOf(w) && (w.Started? ==> start.hour == w.instant.hour && start.minute == w.instant.minute)
  {
    match w
    case SpentOn(day) => start.date == day
    case Started(instant) => ToMinute(start) == ToMinute(instant)
  }

  /** Seconds never decide whether a start matches. */
  lemma StartMatchesIgnoresSeconds(start: Timestamp, w: When, second: nat)
    ensures StartMatches(start.(second := second), w) == StartMatches(start, w)
  {
  }

  /**
   * `_equal`: same whole minutes, same start, and the comment the engine would
   * write. The source duration of equal entries is within half a minute of the
   * destination's whole minutes, both fall on the same day, and, when the
   * description carries no tag of its own, the destination comment carries the
   * source entry's tag.
   */
  predicate Equal(e: TogglEntry, d: DestEntry): (r: bool)
    ensures r ==> e.start.Some? && e.start.value.date == DayOf(d.when)
    ensures r ==> -30 <= e.seconds - 60 * DestMinutes(d.amount) <= 30
    ensures r && ParseTogglTag(e.description).None? ==> TogglIdOf(d) == Some(e.id)
    ensures e.start.Some? && d.when == Started(e.start.value) && d.amount == Seconds(e.seconds) && d.comments == CommentOf(e) ==> r
  {
    var same := && e.start.Some?
                && SourceMinutes(e.seconds) == DestMinutes(d.amount)
                && StartMatches(e.start.value, d.when)
                && d.comments == CommentOf(e);
    if same && ParseTogglTag(e.description).None? then
      CommentTagRoundTrip(e.description, e.id);
      same
    else same
  }

  /**
   * The minute bucket: `60 * m + r` seconds round to `m` minutes when `r` is
   * less than half a minute away, and also at exactly half a minute when `m`
   * is even.
   */
  lemma SourceMinutesBucket(m: int, r: int)
    requires -30 < r < 30 || ((r == 30 || r == -30) && m % 2 == 0)
    ensures SourceMinutes(60 * m + r) == m
  {
    var x := (60 * m + r) as real / 60.0;
    assert x - m as real == r as real / 60.0;
    RoundHalfEvenUnique(x, m);
  }

  /** Durations more than a minute apart never compare equal. */
  lemma SourceMinutesApart(a: int, b: int)
    requires a - b > 60
    ensures SourceMinutes(a) > SourceMinutes(b)
  {
    var xa := a as real / 60.0;
    var xb := b as real / 60.0;
    assert xa - xb > 1.0;
  }

  /** A duration in hours compares like the same duration in seconds. */
  lemma HoursMinutes(seconds: int)
    ensures DestMinutes(Hours(seconds as real / 3600.0)) == SourceMinutes(seconds)
  {
    assert seconds as real / 3600.0 * 60.0 == seconds as real / 60.0;
  }

}
