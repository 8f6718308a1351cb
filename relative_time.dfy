/**
 * The "how long ago" caption of a recent scan: the elapsed milliseconds are
 * bucketed by whole minutes, hours and days, with the counts printed in
 * decimal before a Turkish unit. The clock reading and the calendar-date
 * formatter of the last branch are parameters.
 */
module RelativeTime {

  const MinuteMillis: int := 60000
  const HourMillis: int := 3600000
  const DayMillis: int := 86400000

  predicate IsDigit(c: char) { '0' <= c <= '9' }

  function DigitChar(d: nat): (c: char)
    requires d < 10
    ensures IsDigit(c) && c as int - '0' as int == d
  {
    ('0' as int + d) as char
  }

  /** The decimal text Kotlin prints for a non-negative count. */
  function DecimalText(n: nat): (r: string)
    ensures |r| > 0 && forall i :: 0 <= i < |r| ==> IsDigit(r[i])
    decreases n
  {
    if n < 10 then [DigitChar(n)] else DecimalText(n / 10) + [DigitChar(n % 10)]
  }

  /** The number a string of decimal digits denotes. */
  function DecimalValue(s: string): nat
    requires forall i :: 0 <= i < |s| ==> IsDigit(s[i])
    decreases |s|
  {
    if |s| == 0 then 0
    else
      assert IsDigit(s[|s| - 1]);
      DecimalValue(s[..|s| - 1]) * 10 + (s[|s| - 1] as int - '0' as int)
  }

  /** The printed count reads back as the count. */
  lemma {:induction false} DecimalRoundTrip(n: nat)
    ensures DecimalValue(DecimalText(n)) == n
    decreases n
  {
    var r := DecimalText(n);
    if n >= 10 {
      DecimalRoundTrip(n / 10);
      assert r[..|r| - 1] == DecimalText(n / 10);
    }
  }

  /** A caption made of a count and a unit gives the count back: the text
      before the unit is the count's decimal form. */
  lemma CountReadsBack(n: nat, unit: string)
    ensures var r := DecimalText(n) + unit;
            && (forall i :: 0 <= i < |r| - |unit| ==> IsDigit(r[i]))
            && DecimalValue(r[..|r| - |unit|]) == n
  {
    var r := DecimalText(n) + unit;
    assert r[..|r| - |unit|] == DecimalText(n);
    DecimalRoundTrip(n);
  }

  /** `formatRelativeTime`: the thresholds are tested in increasing order,
      each count is the elapsed time divided by its unit (Kotlin's `TimeUnit`
      conversions truncate, which for the non-negative differences reaching
      those branches is the division used here), and a week or more is left
      to the date formatter. */
  function FormatRelativeTime(timestamp: int, now: int, formatDate: int -> string): (r: string)
    ensures now - timestamp < MinuteMillis ==> r == "Az önce"
    ensures 86400000 <= now - timestamp < 172800000 ==> r == "Dün"
    ensures now - timestamp >= 604800000 ==> r == formatDate(timestamp)
  {
    var diff := now - timestamp;
    if diff < MinuteMillis then "Az önce"
    else if diff < HourMillis then DecimalText(diff / MinuteMillis) + " dk önce"
    else if diff < DayMillis then DecimalText(diff / HourMillis) + " saat önce"
    else if diff < 2 * DayMillis then "Dün"
    else if diff < 7 * DayMillis then DecimalText(diff / DayMillis) + " gün önce"
    else formatDate(timestamp)
  }

  /** Between one minute and one hour: the number of whole minutes elapsed,
      from 1 to 59. */
  lemma MinutesAgo(timestamp: int, now: int, formatDate: int -> string)
    requires MinuteMillis <= now - timestamp < HourMillis
    ensures exists m: nat {:trigger DecimalText(m)} ::
              && 1 <= m <= 59
              && m * MinuteMillis <= now - timestamp < (m + 1) * MinuteMillis
              && FormatRelativeTime(timestamp, now, formatDate) == DecimalText(m) + " dk önce"
  {
    var m: nat := (now - timestamp) / MinuteMillis;
    assert 1 <= m <= 59;
    assert FormatRelativeTime(timestamp, now, formatDate) == DecimalText(m) + " dk önce";
  }

  /** Between one hour and one day: the number of whole hours, from 1 to
      23. */
  lemma HoursAgo(timestamp: int, now: int, formatDate: int -> string)
    requires HourMillis <= now - timestamp < DayMillis
    ensures exists h: nat {:trigger DecimalText(h)} ::
              && 1 <= h <= 23
              && h * HourMillis <= now - timestamp < (h + 1) * HourMillis
              && FormatRelativeTime(timestamp, now, formatDate) == DecimalText(h) + " saat önce"
  {
    var h: nat := (now - timestamp) / HourMillis;
    assert 1 <= h <= 23;
    assert FormatRelativeTime(timestamp, now, formatDate) == DecimalText(h) + " saat önce";
  }

  /** Between two days and one week: the number of whole days, from 2 to
      6. */
  lemma DaysAgo(timestamp: int, now: int, formatDate: int -> string)
    requires 2 * DayMillis <= now - timestamp < 7 * DayMillis
    ensures exists d: nat {:trigger DecimalText(d)} ::
              && 2 <= d <= 6
              && d * DayMillis <= now - timestamp < (d + 1) * DayMillis
              && FormatRelativeTime(timestamp, now, formatDate) == DecimalText(d) + " gün önce"
  {
    var d: nat := (now - timestamp) / DayMillis;
    assert 2 <= d <= 6;
    assert FormatRelativeTime(timestamp, now, formatDate) == DecimalText(d) + " gün önce";
  }

  /** The caption does not depend on the clock itself, only on the time
      elapsed (and, past a week, on the timestamp). */
  lemma OnlyElapsedMatters(timestamp: int, now: int, shift: int, formatDate: int -> string)
    requires now - timestamp < 7 * DayMillis
    ensures FormatRelativeTime(timestamp + shift, now + shift, formatDate)
            == FormatRelativeTime(timestamp, now, formatDate)
  {
  }
}
