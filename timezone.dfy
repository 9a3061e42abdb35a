/** src/utils/timezone.ts: the staleness test and the relative-time text.
    Instants are whole milliseconds since the epoch. The "PST" conversions
    (moment(...).tz(...).toDate()) change how an instant is displayed, not
    the instant, so every difference below is a plain difference of
    milliseconds; the clock reading is a parameter. */
module Timezone {
  import opened Wrappers
  import opened Decimal

  const OneMinuteMs: int := 1000 * 60
  const OneHourMs: int := 60 * 60 * 1000

  /** isDataStalePST: more than one hour has passed since lastFetchMs. */
  predicate IsDataStale(lastFetchMs: int, nowMs: int) {
    nowMs - lastFetchMs > OneHourMs
  }

  /** Exactly one hour old is still fresh; one millisecond more is stale. */
  lemma StaleBoundary(lastFetchMs: int)
    ensures !IsDataStale(lastFetchMs, lastFetchMs + OneHourMs)
    ensures IsDataStale(lastFetchMs, lastFetchMs + OneHourMs + 1)
  {
  }

  /** Staleness is decided by the elapsed time alone and, once reached, it
      persists at every later instant. */
  lemma StaleIsMonotone(lastFetchMs: int, nowMs: int, laterMs: int)
    requires nowMs <= laterMs
    requires IsDataStale(lastFetchMs, nowMs)
    ensures IsDataStale(lastFetchMs, laterMs)
  {
  }

  /** A document stamped at t is fresh for the whole hour that follows t. */
  lemma FreshForOneHour(stampMs: int, nowMs: int)
    requires stampMs <= nowMs <= stampMs + OneHourMs
    ensures !IsDataStale(stampMs, nowMs)
  {
  }

  /** How long ago something happened, as the relative-time text words it. */
  datatype Age = JustNow | MinutesAgo(minutes: nat) | HoursAgo(hours: nat)

  /** The plural suffix for a count n, added when n > 1. */
  function Plural(n: int): string {
    if n > 1 then "s" else ""
  }

  /** The wording of an age. */
  function Render(a: Age): string {
    match a
    case JustNow => "Just now"
    case MinutesAgo(m) => NatToString(m) + " minute" + Plural(m) + " ago"
    case HoursAgo(h) => NatToString(h) + " hour" + Plural(h) + " ago"
  }

  /** The age an elapsed time falls into, from the millisecond ranges. */
  function ElapsedAge(diffMs: int): (a: Age)
    ensures a.JustNow? <==> diffMs < OneMinuteMs
    ensures a.MinutesAgo? ==>
      1 <= a.minutes < 60 && a.minutes * OneMinuteMs <= diffMs < (a.minutes + 1) * OneMinuteMs
    ensures a.HoursAgo? ==>
      1 <= a.hours && a.hours * OneHourMs <= diffMs < (a.hours + 1) * OneHourMs
    ensures a.MinutesAgo? <==> OneMinuteMs <= diffMs < OneHourMs
  {
    if diffMs < OneMinuteMs then JustNow
    else if diffMs < OneHourMs then MinutesAgo(diffMs / OneMinuteMs)
    else HoursAgo(diffMs / OneHourMs)
  }

  /** Whole hours counted through whole minutes are the whole hours. */
  lemma FloorMinutesThenHours(diffMs: int)
    ensures (diffMs / OneMinuteMs) / 60 == diffMs / OneHourMs
  {
    var m := diffMs / OneMinuteMs;
    var h := m / 60;
    assert m * OneMinuteMs <= diffMs < m * OneMinuteMs + OneMinuteMs;
    assert h * 60 <= m < h * 60 + 60;
    assert h * OneHourMs <= diffMs < h * OneHourMs + OneHourMs;
  }

  /** formatRelativeTimePST: whole minutes (rounded down) since the
      timestamp; under one minute, including a timestamp in the future, is
      "Just now"; under an hour counts minutes, otherwise whole hours, with
      the unit in the plural when the count is above one. */
  function FormatRelativeTime(timestampMs: int, nowMs: int): (text: string)
    ensures text == Render(ElapsedAge(nowMs - timestampMs))
  {
    var diffMs := nowMs - timestampMs;
    // Math.floor of the quotient; Dafny's division rounds down for a positive divisor.
    var diffMins := diffMs / OneMinuteMs;
    if diffMins < 1 then "Just now"
    else if diffMins < 60 then NatToString(diffMins) + " minute" + Plural(diffMins) + " ago"
    else
      var diffHours := diffMins / 60;
      FloorMinutesThenHours(diffMs);
      NatToString(diffHours) + " hour" + Plural(diffHours) + " ago"
  }

  /** Reads a relative-time text back: "Just now", or a numeral followed by
      the unit, singular exactly when the count is at most one. */
  function ParseRelativeTime(s: string): (r: Option<Age>)
    ensures r.Some? && r.value.JustNow? ==> s == "Just now"
  {
    if s == "Just now" then Some(JustNow)
    else
      var k := DigitPrefixLength(s);
      if k == 0 then None
      else
        var n := DigitsValue(s[..k]);
        var unit := s[k..];
        if unit == " minute" + Plural(n) + " ago" then Some(MinutesAgo(n))
        else if unit == " hour" + Plural(n) + " ago" then Some(HoursAgo(n))
        else None
  }

  /** Every wording reads back as the age it words. */
  lemma RenderParses(a: Age)
    ensures ParseRelativeTime(Render(a)) == Some(a)
  {
    match a
    case JustNow =>
    case MinutesAgo(m) => MinutesTextParses(m);
    case HoursAgo(h) => HoursTextParses(h);
  }

  lemma MinutesTextParses(m: nat)
    ensures ParseRelativeTime(Render(MinutesAgo(m))) == Some(MinutesAgo(m))
  {
    var d, rest := NatToString(m), " minute" + Plural(m) + " ago";
    CountedTextParses(m, rest);
    var s := Render(MinutesAgo(m));
    assert s == d + rest;
    assert s[..DigitPrefixLength(s)] == d;
    assert s[DigitPrefixLength(s)..] == rest;
  }

  lemma HoursTextParses(h: nat)
    ensures ParseRelativeTime(Render(HoursAgo(h))) == Some(HoursAgo(h))
  {
    var d, rest := NatToString(h), " hour" + Plural(h) + " ago";
    CountedTextParses(h, rest);
    var s := Render(HoursAgo(h));
    assert s == d + rest;
    assert s[..DigitPrefixLength(s)] == d;
    assert s[DigitPrefixLength(s)..] == rest;
  }

  /** A numeral followed by a unit text reads back as that number and unit. */
  lemma CountedTextParses(n: nat, rest: string)
    requires rest == " minute" + Plural(n) + " ago" || rest == " hour" + Plural(n) + " ago"
    ensures var s := NatToString(n) + rest;
      && s != "Just now"
      && DigitPrefixLength(s) == |NatToString(n)|
      && s[..|NatToString(n)|] == NatToString(n)
      && s[|NatToString(n)|..] == rest
      && DigitsValue(NatToString(n)) == n
      && (" minute" + Plural(n) + " ago") != (" hour" + Plural(n) + " ago")
  {
    var d := NatToString(n);
    ParseNatToString(n);
    assert rest[0] == ' ';
    DigitPrefixOfNumeral(d, rest);
    assert (d + rest)[0] == d[0] && IsDigit(d[0]);
    assert (d + rest)[..|d|] == d && (d + rest)[|d|..] == rest;
    assert (" minute" + Plural(n) + " ago")[1] != (" hour" + Plural(n) + " ago")[1];
  }

  /** The relative-time text determines the age it was formatted from: two
      elapsed times give the same text exactly when they fall in the same
      minute below an hour, the same hour above it, or both below a minute. */
  lemma FormatRelativeTimeReadsBack(timestampMs: int, nowMs: int)
    ensures ParseRelativeTime(FormatRelativeTime(timestampMs, nowMs)) == Some(ElapsedAge(nowMs - timestampMs))
  {
    RenderParses(ElapsedAge(nowMs - timestampMs));
  }

  lemma FormatRelativeTimeSameText(t1: int, n1: int, t2: int, n2: int)
    ensures FormatRelativeTime(t1, n1) == FormatRelativeTime(t2, n2) <==> ElapsedAge(n1 - t1) == ElapsedAge(n2 - t2)
  {
    FormatRelativeTimeReadsBack(t1, n1);
    FormatRelativeTimeReadsBack(t2, n2);
  }

  /** The singular and plural cases, spelled out for the counts the source
      distinguishes. */
  lemma RelativeTimeExamples(t: int)
    ensures FormatRelativeTime(t, t + 59_999) == "Just now"
    ensures FormatRelativeTime(t, t - 5) == "Just now"
    ensures FormatRelativeTime(t, t + 60_000) == "1 minute ago"
    ensures FormatRelativeTime(t, t + 120_000) == "2 minutes ago"
    ensures FormatRelativeTime(t, t + OneHourMs) == "1 hour ago"
    ensures FormatRelativeTime(t, t + 3 * OneHourMs + 59 * OneMinuteMs) == "3 hours ago"
  {
    assert ElapsedAge(59_999) == JustNow && ElapsedAge(-5) == JustNow;
    assert ElapsedAge(60_000) == MinutesAgo(1) && ElapsedAge(120_000) == MinutesAgo(2);
    assert ElapsedAge(OneHourMs) == HoursAgo(1);
    assert ElapsedAge(3 * OneHourMs + 59 * OneMinuteMs) == HoursAgo(3);
    assert NatToString(1) == "1" && Render(MinutesAgo(1)) == "1 minute ago" && Render(HoursAgo(1)) == "1 hour ago";
    assert NatToString(2) == "2" && Render(MinutesAgo(2)) == "2 minutes ago";
    assert NatToString(3) == "3" && Render(HoursAgo(3)) == "3 hours ago";
  }
}
