/**
 * Firestore `Timestamp` values and their rendering through
 * `toDate().toInstant().toString()` (ISO 8601 in UTC, for example
 * "2024-05-01T22:30:00Z" or "2024-05-01T22:30:00.250Z").
 *
 * A timestamp is represented by its UTC calendar fields; Firestore admits
 * the years 1 to 9999.
 */
module Timestamps {
  import opened KotlinStrings

  datatype Utc = Utc(year: int, month: int, day: int, hour: int, minute: int, second: int, nanos: int)

  predicate IsLeapYear(y: int) {
    (y % 4 == 0 && y % 100 != 0) || y % 400 == 0
  }

  function DaysInMonth(y: int, m: int): int
    requires 1 <= m <= 12
  {
    if m == 2 then (if IsLeapYear(y) then 29 else 28)
    else if m == 4 || m == 6 || m == 9 || m == 11 then 30
    else 31
  }

  predicate ValidUtc(t: Utc) {
    && 1 <= t.year <= 9999
    && 1 <= t.month <= 12
    && 1 <= t.day <= DaysInMonth(t.year, t.month)
    && 0 <= t.hour < 24 && 0 <= t.minute < 60 && 0 <= t.second < 60
    && 0 <= t.nanos < 1_000_000_000
  }

  type Timestamp = t: Utc | ValidUtc(t) witness Utc(1970, 1, 1, 0, 0, 0, 0)

  /** `"%04d-%02d-%02d"`: an ISO 8601 calendar date in extended format. */
  function IsoDate(y: nat, m: nat, d: nat): string {
    Pad(y, 4) + "-" + Pad(m, 2) + "-" + Pad(d, 2)
  }

  /** The fraction `Instant.toString()` prints after `toDate()` has cut the value to milliseconds. */
  function MillisFraction(nanos: nat): string {
    var millis := nanos / 1_000_000;
    if millis == 0 then "" else "." + Pad(millis, 3)
  }

  /** `at.toDate().toInstant().toString()` */
  function InstantString(t: Timestamp): (r: string)
    ensures |r| >= 20
    ensures r[..10] == IsoDate(t.year, t.month, t.day) && r[10] == 'T'
    ensures r[|r| - 1] == 'Z'
  {
    IsoDateWidth(t.year, t.month, t.day);
    IsoDate(t.year, t.month, t.day) + "T" + Pad(t.hour, 2) + ":" + Pad(t.minute, 2) + ":" + Pad(t.second, 2)
      + MillisFraction(t.nanos) + "Z"
  }

  /**
   * `InstantString(t).substring(0, 10)`: the UTC calendar date of the
   * timestamp, YYYY-MM-DD (ISO 8601:2004 section 4.1.2.2, complete
   * representation in extended format).
   */
  function DateKey(t: Timestamp): (key: string)
    ensures |key| == 10
    ensures key == IsoDate(t.year, t.month, t.day)
  {
    IsoDateWidth(t.year, t.month, t.day);
    var s := InstantString(t);
    assert s[..10] == IsoDate(t.year, t.month, t.day);
    s[..10]
  }

  lemma IsoDateWidth(y: nat, m: nat, d: nat)
    requires y < 10000 && m < 100 && d < 100
    ensures |Pad(y, 4)| == 4 && |Pad(m, 2)| == 2 && |Pad(d, 2)| == 2
    ensures |IsoDate(y, m, d)| == 10
  {
    PadWidth(y, 4);
    PadWidth(m, 2);
    PadWidth(d, 2);
  }

  /** Splitting an ISO date on '-' gives back its three zero-padded fields. */
  lemma IsoDatePieces(y: nat, m: nat, d: nat)
    ensures Split(IsoDate(y, m, d), '-') == [Pad(y, 4), Pad(m, 2), Pad(d, 2)]
  {
    var ys, ms, ds := Pad(y, 4), Pad(m, 2), Pad(d, 2);
    assert '-' !in ys && '-' !in ms && '-' !in ds;
    assert IsoDate(y, m, d) == ys + ['-'] + (ms + ['-'] + ds);
    SplitAt(ys, ms + ['-'] + ds, '-');
    SplitAt(ms, ds, '-');
    SplitWhole(ds, '-');
  }

  /** Two ISO dates are equal exactly when their fields are. */
  lemma IsoDateInjective(y: nat, m: nat, d: nat, y': nat, m': nat, d': nat)
    ensures IsoDate(y, m, d) == IsoDate(y', m', d') <==> y == y' && m == m' && d == d'
  {
    if IsoDate(y, m, d) == IsoDate(y', m', d') {
      IsoDatePieces(y, m, d);
      IsoDatePieces(y', m', d');
      PadRoundTrip(y, 4); PadRoundTrip(y', 4);
      PadRoundTrip(m, 2); PadRoundTrip(m', 2);
      PadRoundTrip(d, 2); PadRoundTrip(d', 2);
    }
  }

  /** Two timestamps share a date key exactly when they fall on the same UTC calendar day. */
  lemma DateKeySameDay(a: Timestamp, b: Timestamp)
    ensures DateKey(a) == DateKey(b) <==> a.year == b.year && a.month == b.month && a.day == b.day
  {
    IsoDateInjective(a.year, a.month, a.day, b.year, b.month, b.day);
  }
}
