/**
 * Naive Python datetimes: the calendar record, isoformat() and its inverse
 * fromisoformat() on the strings isoformat() produces, strftime's "%Y-%m"
 * and "%Y%m%d_%H%M%S" keys, and elapsed time between two instants.
 * The wall clock itself (datetime.now()) is always a parameter.
 */
module Clock {
  import opened Wrappers
  import opened Text

  datatype DateTime = DateTime(year: int, month: int, day: int,
                               hour: int, minute: int, second: int, micro: int)

  predicate IsLeap(y: int) { y % 4 == 0 && (y % 100 != 0 || y % 400 == 0) }

  function DaysInMonth(y: int, m: int): (n: int)
    requires 1 <= m <= 12
    ensures 28 <= n <= 31
  {
    if m == 2 then (if IsLeap(y) then 29 else 28)
    else if m == 4 || m == 6 || m == 9 || m == 11 then 30
    else 31
  }

  /** The range checks of datetime's constructor. */
  predicate Valid(d: DateTime) {
    && 1 <= d.year <= 9999
    && 1 <= d.month <= 12
    && 1 <= d.day <= DaysInMonth(d.year, d.month)
    && 0 <= d.hour < 24
    && 0 <= d.minute < 60
    && 0 <= d.second < 60
    && 0 <= d.micro < 1000000
  }

  function Pow10(n: nat): (p: nat)
    ensures p >= 1
  {
    if n == 0 then 1 else 10 * Pow10(n - 1)
  }

  /** The last w decimal digits of n, zero-filled: "%0{w}d" for n < 10^w. */
  function Pad(n: nat, w: nat): (s: string)
    ensures |s| == w && AllDigits(s)
  {
    if w == 0 then [] else Pad(n / 10, w - 1) + [DigitChar(n % 10)]
  }

  /** Reading a zero-filled field back gives the number. */
  lemma {:induction false} PadValue(n: nat, w: nat)
    requires n < Pow10(w)
    ensures DigitsValue(Pad(n, w)) == n
  {
    if w > 0 {
      PadValue(n / 10, w - 1);
      var s := Pad(n, w);
      assert s[..|s| - 1] == Pad(n / 10, w - 1);
    }
  }

  /** The fixed-width part "YYYY-MM-DDTHH:MM:SS" of isoformat(). */
  function IsoSeconds(d: DateTime): (s: string)
    requires Valid(d)
    ensures |s| == 19
  {
    Pad(d.year, 4) + "-" + Pad(d.month, 2) + "-" + Pad(d.day, 2) + "T"
    + Pad(d.hour, 2) + ":" + Pad(d.minute, 2) + ":" + Pad(d.second, 2)
  }

  /** datetime.isoformat(): the microseconds appear only when they are not zero. */
  function IsoFormat(d: DateTime): (s: string)
    requires Valid(d)
    ensures |s| == (if d.micro == 0 then 19 else 26)
  {
    IsoSeconds(d) + (if d.micro == 0 then "" else "." + Pad(d.micro, 6))
  }

  /** A run of digits of the given width at position i of s. */
  predicate DigitsAt(s: string, i: nat, w: nat) {
    i + w <= |s| && AllDigits(s[i..i + w])
  }

  function FieldAt(s: string, i: nat, w: nat): nat
    requires DigitsAt(s, i, w)
  {
    DigitsValue(s[i..i + w])
  }

  predicate IsoShaped(s: string) {
    && (|s| == 19 || (|s| == 26 && s[19] == '.' && DigitsAt(s, 20, 6)))
    && s[4] == '-' && s[7] == '-' && s[10] == 'T' && s[13] == ':' && s[16] == ':'
    && DigitsAt(s, 0, 4) && DigitsAt(s, 5, 2) && DigitsAt(s, 8, 2)
    && DigitsAt(s, 11, 2) && DigitsAt(s, 14, 2) && DigitsAt(s, 17, 2)
  }

  /**
   * datetime.fromisoformat() on the two shapes isoformat() writes for a naive
   * datetime; None where Python raises ValueError.
   */
  function FromIsoFormat(s: string): (r: Option<DateTime>)
    ensures r.Some? ==> Valid(r.value)
  {
    if !IsoShaped(s) then None
    else
      var d := DateTime(FieldAt(s, 0, 4), FieldAt(s, 5, 2), FieldAt(s, 8, 2),
                        FieldAt(s, 11, 2), FieldAt(s, 14, 2), FieldAt(s, 17, 2),
                        if |s| == 26 then FieldAt(s, 20, 6) else 0);
      if Valid(d) then Some(d) else None
  }

  /** A slice inside the left operand of a concatenation. */
  lemma SliceLeft(a: string, b: string, i: nat, j: nat)
    requires i <= j <= |a|
    ensures (a + b)[i..j] == a[i..j]
  {
  }

  lemma IsoSecondsFields(d: DateTime)
    requires Valid(d)
    ensures var s := IsoSeconds(d);
      && s[4] == '-' && s[7] == '-' && s[10] == 'T' && s[13] == ':' && s[16] == ':'
      && s[0..4] == Pad(d.year, 4) && s[5..7] == Pad(d.month, 2) && s[8..10] == Pad(d.day, 2)
      && s[11..13] == Pad(d.hour, 2) && s[14..16] == Pad(d.minute, 2) && s[17..19] == Pad(d.second, 2)
  {
    var p1 := Pad(d.year, 4) + "-";
    var p3 := p1 + Pad(d.month, 2) + "-";
    var p5 := p3 + Pad(d.day, 2) + "T";
    var p7 := p5 + Pad(d.hour, 2) + ":";
    var p9 := p7 + Pad(d.minute, 2) + ":";
    var s := p9 + Pad(d.second, 2);
    assert s == IsoSeconds(d);
    SliceLeft(p9, Pad(d.second, 2), 0, 17);
    assert s[..17] == p9;
    SliceLeft(p7, Pad(d.minute, 2) + ":", 0, 14);
    SliceLeft(p5, Pad(d.hour, 2) + ":", 0, 11);
    SliceLeft(p3, Pad(d.day, 2) + "T", 0, 8);
    SliceLeft(p1, Pad(d.month, 2) + "-", 0, 5);
    assert p9 == p7 + (Pad(d.minute, 2) + ":");
    assert p7 == p5 + (Pad(d.hour, 2) + ":");
    assert p5 == p3 + (Pad(d.day, 2) + "T");
    assert p3 == p1 + (Pad(d.month, 2) + "-");
    assert s[14..16] == p9[14..16] == Pad(d.minute, 2);
    assert s[11..13] == p7[11..13] == Pad(d.hour, 2);
    assert s[8..10] == p5[8..10] == Pad(d.day, 2);
    assert s[5..7] == p3[5..7] == Pad(d.month, 2);
    assert s[0..4] == p1[0..4] == Pad(d.year, 4);
  }

  /** The fields of the first 19 characters of isoformat() read back as the date and time. */
  lemma IsoSecondsRead(d: DateTime, s: string)
    requires Valid(d) && |s| >= 19 && s[..19] == IsoSeconds(d)
    ensures s[4] == '-' && s[7] == '-' && s[10] == 'T' && s[13] == ':' && s[16] == ':'
    ensures DigitsAt(s, 0, 4) && FieldAt(s, 0, 4) == d.year
    ensures DigitsAt(s, 5, 2) && FieldAt(s, 5, 2) == d.month
    ensures DigitsAt(s, 8, 2) && FieldAt(s, 8, 2) == d.day
    ensures DigitsAt(s, 11, 2) && FieldAt(s, 11, 2) == d.hour
    ensures DigitsAt(s, 14, 2) && FieldAt(s, 14, 2) == d.minute
    ensures DigitsAt(s, 17, 2) && FieldAt(s, 17, 2) == d.second
  {
    var t := IsoSeconds(d);
    IsoSecondsFields(d);
    assert s[0..4] == t[0..4] && s[5..7] == t[5..7] && s[8..10] == t[8..10];
    assert s[11..13] == t[11..13] && s[14..16] == t[14..16] && s[17..19] == t[17..19];
    PadValue(d.year, 4);
    PadValue(d.month, 2);
    PadValue(d.day, 2);
    PadValue(d.hour, 2);
    PadValue(d.minute, 2);
    PadValue(d.second, 2);
  }

  /** fromisoformat(isoformat(d)) == d */
  lemma IsoRoundTrip(d: DateTime)
    requires Valid(d)
    ensures FromIsoFormat(IsoFormat(d)) == Some(d)
  {
    var s := IsoFormat(d);
    assert s[..19] == IsoSeconds(d);
    IsoSecondsRead(d, s);
    if d.micro != 0 {
      assert s[20..26] == Pad(d.micro, 6);
      PadValue(d.micro, 6);
    }
  }

  /** strftime("%Y-%m"): the month an instant falls in. */
  function MonthKey(d: DateTime): (k: string)
    requires Valid(d)
    ensures |k| == 7 && k[4] == '-'
  {
    Pad(d.year, 4) + "-" + Pad(d.month, 2)
  }

  /** strftime("%Y%m%d_%H%M%S") */
  function CompactStamp(d: DateTime): (k: string)
    requires Valid(d)
    ensures |k| == 15 && k[8] == '_'
  {
    Pad(d.year, 4) + Pad(d.month, 2) + Pad(d.day, 2) + "_"
    + Pad(d.hour, 2) + Pad(d.minute, 2) + Pad(d.second, 2)
  }

  /** strftime("%Y-%m-%d_%H-%M") */
  function MinuteStamp(d: DateTime): (k: string)
    requires Valid(d)
    ensures |k| == 16 && k[10] == '_'
  {
    Pad(d.year, 4) + "-" + Pad(d.month, 2) + "-" + Pad(d.day, 2) + "_"
    + Pad(d.hour, 2) + "-" + Pad(d.minute, 2)
  }

  /** Days in the months of year y before month m. */
  function DaysBeforeMonth(y: int, m: int): (n: nat)
    requires 1 <= m <= 13
  {
    if m == 1 then 0 else DaysBeforeMonth(y, m - 1) + DaysInMonth(y, m - 1)
  }

  /** Days in the years before year y of the proleptic Gregorian calendar. */
  function DaysBeforeYear(y: int): int {
    var p := y - 1;
    365 * p + p / 4 - p / 100 + p / 400
  }

  /** The instant as microseconds since 0001-01-01T00:00:00 minus one day. */
  function Micros(d: DateTime): int
    requires Valid(d)
  {
    var days := DaysBeforeYear(d.year) + DaysBeforeMonth(d.year, d.month) + d.day;
    ((days * 24 + d.hour) * 60 + d.minute) * 60000000 + d.second * 1000000 + d.micro
  }

  /** (later - earlier).total_seconds() */
  function ElapsedSeconds(earlier: DateTime, later: DateTime): real
    requires Valid(earlier) && Valid(later)
  {
    (Micros(later) - Micros(earlier)) as real / 1000000.0
  }

  /** later - timedelta(hours=h) compared with t: t is older than h hours before now. */
  predicate OlderThan(t: DateTime, now: DateTime, hours: int)
    requires Valid(t) && Valid(now)
  {
    Micros(t) < Micros(now) - hours * 3600000000
  }
}
