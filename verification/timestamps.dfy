/** Timestamps as the metadata store writes them.

    `_dt_to_str` is Python's `datetime.isoformat()` on a UTC value: a fixed-width
    prefix, a fraction that is left out when it is zero, and the offset `+00:00`.
    SQLite orders and filters these columns as text.  The theorems below show that
    text order is nevertheless time order, although the strings differ in length. */
module Timestamps {

  import opened Wrappers

  datatype DateTime = DateTime(year: nat, month: nat, day: nat, hour: nat, minute: nat, second: nat, micro: nat)

  predicate IsLeap(year: nat) {
    year % 4 == 0 && (year % 100 != 0 || year % 400 == 0)
  }

  function DaysInMonth(year: nat, month: nat): nat {
    if month == 2 then (if IsLeap(year) then 29 else 28)
    else if month in {4, 6, 9, 11} then 30
    else 31
  }

  predicate IsUtc(d: DateTime) {
    && 1 <= d.year <= 9999 && 1 <= d.month <= 12 && 1 <= d.day <= DaysInMonth(d.year, d.month)
    && d.hour < 24 && d.minute < 60 && d.second < 60 && d.micro < 1_000_000
  }

  /** A timezone-aware value already normalised to UTC, as the contract models guarantee. */
  type Utc = d: DateTime | IsUtc(d) witness DateTime(1, 1, 1, 0, 0, 0, 0)

  // ---------------------------------------------------------------------------
  // The encoding and its inverse
  // ---------------------------------------------------------------------------

  function Digit(n: nat): char
    requires n < 10
  {
    '0' + n as char
  }

  function Pad(n: nat, width: nat): (s: string)
    ensures |s| == width
  {
    if width == 0 then "" else Pad(n / 10, width - 1) + [Digit(n % 10)]
  }

  function Prefix(d: DateTime): (s: string)
    ensures |s| == 19
  {
    Pad(d.year, 4) + "-" + Pad(d.month, 2) + "-" + Pad(d.day, 2) + "T"
    + Pad(d.hour, 2) + ":" + Pad(d.minute, 2) + ":" + Pad(d.second, 2)
  }

  const OFFSET: string := "+00:00"

  function Fraction(micro: nat): string {
    if micro == 0 then "" else "." + Pad(micro, 6)
  }

  function DtToStr(d: Utc): string {
    Prefix(d) + (Fraction(d.micro) + OFFSET)
  }

  predicate IsDigit(c: char) { '0' <= c <= '9' }

  predicate AllDigits(s: string) { forall i :: 0 <= i < |s| ==> IsDigit(s[i]) }

  function Value(s: string): nat
    requires AllDigits(s)
  {
    if s == "" then 0 else 10 * Value(s[..|s| - 1]) + (s[|s| - 1] - '0') as nat
  }

  function Number(s: string): Option<nat> {
    if AllDigits(s) then Some(Value(s)) else None
  }

  /** The two layouts `isoformat()` produces, read back by fixed position. */
  function StrToDt(s: string): Option<DateTime> {
    if !(|s| == 25 || (|s| == 32 && s[19] == '.')) || s[|s| - 6..] != OFFSET then None
    else if s[4] != '-' || s[7] != '-' || s[10] != 'T' || s[13] != ':' || s[16] != ':' then None
    else
      var micro := if |s| == 32 then Number(s[20..26]) else Some(0);
      match (Number(s[..4]), Number(s[5..7]), Number(s[8..10]), Number(s[11..13]), Number(s[14..16]), Number(s[17..19]),
             micro)
      case (Some(y), Some(mo), Some(d), Some(h), Some(mi), Some(se), Some(us)) =>
        var dt := DateTime(y, mo, d, h, mi, se, us);
        if IsUtc(dt) then Some(dt) else None
      case _ => None
  }

  // ---------------------------------------------------------------------------
  // Round trip
  // ---------------------------------------------------------------------------

  function Pow10(w: nat): nat { if w == 0 then 1 else 10 * Pow10(w - 1) }

  lemma {:induction false} PadDigits(n: nat, w: nat)
    requires n < Pow10(w)
    ensures AllDigits(Pad(n, w)) && Value(Pad(n, w)) == n
  {
    if w > 0 {
      PadDigits(n / 10, w - 1);
      assert Pad(n, w)[..w - 1] == Pad(n / 10, w - 1);
    }
  }

  lemma PadReads(n: nat, w: nat)
    requires n < Pow10(w)
    ensures Number(Pad(n, w)) == Some(n)
  {
    PadDigits(n, w);
  }

  lemma PrefixFields(d: Utc, s: string)
    requires 19 <= |s| && s[..19] == Prefix(d)
    ensures s[..4] == Pad(d.year, 4) && s[5..7] == Pad(d.month, 2) && s[8..10] == Pad(d.day, 2)
    ensures s[11..13] == Pad(d.hour, 2) && s[14..16] == Pad(d.minute, 2) && s[17..19] == Pad(d.second, 2)
    ensures s[4] == '-' && s[7] == '-' && s[10] == 'T' && s[13] == ':' && s[16] == ':'
  {
    assert forall i :: 0 <= i < 19 ==> s[i] == Prefix(d)[i];
  }

  /** `_str_to_dt` inverts `_dt_to_str` on every UTC datetime, with or without a fraction. */
  lemma RoundTrip(d: Utc)
    ensures StrToDt(DtToStr(d)) == Some(d)
  {
    var s := DtToStr(d);
    assert Pow10(2) == 100 && Pow10(4) == 10000 && Pow10(6) == 1_000_000;
    assert s[..19] == Prefix(d);
    PrefixFields(d, s);
    PadReads(d.year, 4); PadReads(d.month, 2); PadReads(d.day, 2);
    PadReads(d.hour, 2); PadReads(d.minute, 2); PadReads(d.second, 2);
    assert s[|s| - 6..] == OFFSET;
    if d.micro != 0 {
      PadReads(d.micro, 6);
      assert s[20..26] == Pad(d.micro, 6);
    }
  }

  // ---------------------------------------------------------------------------
  // Order
  // ---------------------------------------------------------------------------

  /** SQLite's BINARY collation: byte by byte, a proper prefix first. */
  predicate TextBefore(a: string, b: string) {
    b != "" && (a == "" || a[0] < b[0] || (a[0] == b[0] && TextBefore(a[1..], b[1..])))
  }

  lemma {:induction false} TextBeforeConcat(x: string, y: string, u: string, v: string)
    requires |x| == |y|
    ensures TextBefore(x + u, y + v) <==> TextBefore(x, y) || (x == y && TextBefore(u, v))
  {
    if x == "" {
      assert x + u == u && y + v == v;
    } else {
      assert (x + u)[1..] == x[1..] + u && (y + v)[1..] == y[1..] + v;
      TextBeforeConcat(x[1..], y[1..], u, v);
      assert x == [x[0]] + x[1..] && y == [y[0]] + y[1..];
    }
  }

  lemma {:induction false} TextBeforeIrreflexive(x: string)
    ensures !TextBefore(x, x)
  {
    if x != "" { TextBeforeIrreflexive(x[1..]); }
  }

  lemma {:induction false} TextBeforeTransitive(x: string, y: string, z: string)
    requires TextBefore(x, y) && TextBefore(y, z)
    ensures TextBefore(x, z)
  {
    if x != "" && x[0] == y[0] && y[0] == z[0] { TextBeforeTransitive(x[1..], y[1..], z[1..]); }
  }

  lemma {:induction false} TextBeforeTotal(x: string, y: string)
    ensures x == y || TextBefore(x, y) || TextBefore(y, x)
  {
    if x != "" && y != "" && x[0] == y[0] {
      TextBeforeTotal(x[1..], y[1..]);
      assert x == [x[0]] + x[1..] && y == [y[0]] + y[1..];
    }
  }

  /** Equal-width decimal fields compare as numbers. */
  lemma {:induction false} PadOrder(a: nat, b: nat, w: nat)
    requires a < Pow10(w) && b < Pow10(w)
    ensures TextBefore(Pad(a, w), Pad(b, w)) <==> a < b
    ensures Pad(a, w) == Pad(b, w) <==> a == b
  {
    PadDigits(a, w);
    PadDigits(b, w);
    if w > 0 {
      PadOrder(a / 10, b / 10, w - 1);
      TextBeforeConcat(Pad(a / 10, w - 1), Pad(b / 10, w - 1), [Digit(a % 10)], [Digit(b % 10)]);
      assert TextBefore([Digit(a % 10)], [Digit(b % 10)]) <==> a % 10 < b % 10;
    }
  }

  /** The variable-length tail: an absent fraction sorts before every present one
      because the offset's `+` precedes the `.` that introduces a fraction. */
  lemma FractionOrder(a: nat, b: nat)
    requires a < 1_000_000 && b < 1_000_000
    ensures TextBefore(Fraction(a) + OFFSET, Fraction(b) + OFFSET) <==> a < b
  {
    assert Pow10(6) == 1_000_000;
    PadOrder(a, b, 6);
    TextBeforeIrreflexive(OFFSET);
    if a == 0 && b == 0 {
      assert Fraction(a) + OFFSET == OFFSET;
    } else if a == 0 || b == 0 {
      assert '+' < '.';
    } else {
      var x, y := Fraction(a), Fraction(b);
      TextBeforeConcat(x, y, OFFSET, OFFSET);
      assert x[1..] == Pad(a, 6) && y[1..] == Pad(b, 6);
      assert x == y <==> a == b;
    }
  }

  /** Python's comparison of two datetimes with the same offset: field by field. */
  predicate Before(a: DateTime, b: DateTime) {
    a.year < b.year || (a.year == b.year &&
    (a.month < b.month || (a.month == b.month &&
    (a.day < b.day || (a.day == b.day &&
    (a.hour < b.hour || (a.hour == b.hour &&
    (a.minute < b.minute || (a.minute == b.minute &&
    (a.second < b.second || (a.second == b.second &&
     a.micro < b.micro)))))))))))
  }

  lemma FieldThen(a: nat, b: nat, w: nat, sep: string, u: string, v: string)
    requires a < Pow10(w) && b < Pow10(w)
    ensures TextBefore(Pad(a, w) + (sep + u), Pad(b, w) + (sep + v)) <==> a < b || (a == b && TextBefore(u, v))
  {
    PadOrder(a, b, w);
    TextBeforeConcat(Pad(a, w), Pad(b, w), sep + u, sep + v);
    TextBeforeConcat(sep, sep, u, v);
    TextBeforeIrreflexive(sep);
  }

  /** The encoding from a given field onwards, nested to the right. */
  function TailFrom(d: Utc, field: nat): string
    decreases 6 - field
  {
    match field
    case 0 => Pad(d.year, 4) + ("-" + TailFrom(d, 1))
    case 1 => Pad(d.month, 2) + ("-" + TailFrom(d, 2))
    case 2 => Pad(d.day, 2) + ("T" + TailFrom(d, 3))
    case 3 => Pad(d.hour, 2) + (":" + TailFrom(d, 4))
    case 4 => Pad(d.minute, 2) + (":" + TailFrom(d, 5))
    case 5 => Pad(d.second, 2) + ("" + (Fraction(d.micro) + OFFSET))
    case _ => ""
  }

  lemma DtToStrByField(d: Utc)
    ensures DtToStr(d) == TailFrom(d, 0)
  {
    var t5 := Pad(d.second, 2) + (Fraction(d.micro) + OFFSET);
    assert TailFrom(d, 5) == t5;
    assert TailFrom(d, 4) == Pad(d.minute, 2) + ":" + t5;
    assert TailFrom(d, 3) == Pad(d.hour, 2) + ":" + Pad(d.minute, 2) + ":" + t5;
    assert TailFrom(d, 2) == Pad(d.day, 2) + "T" + Pad(d.hour, 2) + ":" + Pad(d.minute, 2) + ":" + t5;
    assert TailFrom(d, 1) == Pad(d.month, 2) + "-" + Pad(d.day, 2) + "T" + Pad(d.hour, 2) + ":" + Pad(d.minute, 2) + ":"
      + t5;
  }

  /** Text order of the stored column is time order, for every pair of UTC datetimes. */
  lemma TextOrderIsTimeOrder(a: Utc, b: Utc)
    ensures TextBefore(DtToStr(a), DtToStr(b)) <==> Before(a, b)
  {
    DtToStrByField(a);
    DtToStrByField(b);
    assert Pow10(2) == 100 && Pow10(4) == 10000;
    FractionOrder(a.micro, b.micro);
    FieldThen(a.second, b.second, 2, "", Fraction(a.micro) + OFFSET, Fraction(b.micro) + OFFSET);
    FieldThen(a.minute, b.minute, 2, ":", TailFrom(a, 5), TailFrom(b, 5));
    FieldThen(a.hour, b.hour, 2, ":", TailFrom(a, 4), TailFrom(b, 4));
    FieldThen(a.day, b.day, 2, "T", TailFrom(a, 3), TailFrom(b, 3));
    FieldThen(a.month, b.month, 2, "-", TailFrom(a, 2), TailFrom(b, 2));
    FieldThen(a.year, b.year, 4, "-", TailFrom(a, 1), TailFrom(b, 1));
  }

  // ---------------------------------------------------------------------------
  // Elapsed time: `Before` is the order of instants on the proleptic Gregorian calendar
  // ---------------------------------------------------------------------------

  function DaysBeforeYear(year: nat): int
    requires year >= 1
  {
    var y := year - 1;
    y * 365 + y / 4 - y / 100 + y / 400
  }

  function DaysBeforeMonth(year: nat, month: nat): nat {
    if month <= 1 then 0 else DaysBeforeMonth(year, month - 1) + DaysInMonth(year, month - 1)
  }

  function DayNumber(d: DateTime): int
    requires IsUtc(d)
  {
    DaysBeforeYear(d.year) + DaysBeforeMonth(d.year, d.month) + d.day
  }

  /** Microseconds since the calendar's first midnight. */
  function Micros(d: Utc): int {
    (((DayNumber(d) * 24 + d.hour) * 60 + d.minute) * 60 + d.second) * 1_000_000 + d.micro
  }

  lemma QuotientStep(y: nat, n: nat)
    requires y >= 1 && (n == 4 || n == 100 || n == 400)
    ensures y / n - (y - 1) / n == if y % n == 0 then 1 else 0
  {
    if n == 4 {
      assert y / 4 - (y - 1) / 4 == if y % 4 == 0 then 1 else 0;
    } else if n == 100 {
      assert y / 100 - (y - 1) / 100 == if y % 100 == 0 then 1 else 0;
    }
  }

  lemma YearLength(year: nat)
    requires year >= 1
    ensures DaysBeforeYear(year + 1) - DaysBeforeYear(year) == if IsLeap(year) then 366 else 365
  {
    QuotientStep(year, 4);
    QuotientStep(year, 100);
    QuotientStep(year, 400);
  }

  lemma {:induction false} YearsGrow(a: nat, b: nat)
    requires 1 <= a < b
    ensures DaysBeforeYear(a) + (if IsLeap(a) then 366 else 365) <= DaysBeforeYear(b)
    decreases b - a
  {
    YearLength(a);
    if a + 1 < b { YearsGrow(a + 1, b); }
  }

  lemma {:induction false} MonthsGrow(year: nat, a: nat, b: nat)
    requires 1 <= a < b
    ensures DaysBeforeMonth(year, a) + DaysInMonth(year, a) <= DaysBeforeMonth(year, b)
  {
    if a + 1 < b { MonthsGrow(year, a, b - 1); }
  }

  lemma MonthsFitInYear(year: nat, month: nat)
    requires 1 <= month <= 12
    ensures DaysBeforeMonth(year, month) + DaysInMonth(year, month) <= if IsLeap(year) then 366 else 365
  {
    if month < 12 { MonthsGrow(year, month, 12); }
    assert DaysBeforeMonth(year, 4) == DaysInMonth(year, 1) + DaysInMonth(year, 2) + DaysInMonth(year, 3);
    assert DaysBeforeMonth(year, 7) == DaysBeforeMonth(year, 4) + 30 + 31 + 30;
    assert DaysBeforeMonth(year, 10) == DaysBeforeMonth(year, 7) + 31 + 31 + 30;
    assert DaysBeforeMonth(year, 12) == DaysBeforeMonth(year, 10) + 31 + 30;
  }

  lemma EarlierDate(a: Utc, b: Utc)
    requires a.year < b.year || (a.year == b.year && (a.month < b.month || (a.month == b.month && a.day < b.day)))
    ensures DayNumber(a) < DayNumber(b)
  {
    if a.year < b.year {
      YearsGrow(a.year, b.year);
      MonthsFitInYear(a.year, a.month);
    } else if a.month < b.month {
      MonthsGrow(a.year, a.month, b.month);
    }
  }

  lemma EarlierInstant(a: Utc, b: Utc)
    requires Before(a, b)
    ensures Micros(a) < Micros(b)
  {
    if DayNumber(a) != DayNumber(b) || a.day != b.day || a.month != b.month || a.year != b.year {
      EarlierDate(a, b);
    }
  }

  /** The stored text orders instants: the chain from the column's bytes to elapsed time. */
  lemma TextOrderIsInstantOrder(a: Utc, b: Utc)
    ensures TextBefore(DtToStr(a), DtToStr(b)) <==> Micros(a) < Micros(b)
    ensures DtToStr(a) == DtToStr(b) <==> Micros(a) == Micros(b)
  {
    TextOrderIsTimeOrder(a, b);
    TextOrderIsTimeOrder(b, a);
    RoundTrip(a);
    RoundTrip(b);
    if Before(a, b) { EarlierInstant(a, b); }
    else if Before(b, a) { EarlierInstant(b, a); TextBeforeIrreflexive(DtToStr(a)); }
    else { assert a == b; }
  }
}
