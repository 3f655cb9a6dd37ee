/**
 * Calendar dates as the routes receive them: text checked against the
 * `full-date` shape of section 5.6 of RFC 3339 (`YYYY-MM-DD`) by the
 * regular expression the routes test (openDays.js and reports.js).
 * Only the shape is checked; month and day ranges are not.
 */
module Dates {
  import opened Text

  /**
   * The shape test: four digits, a hyphen, two digits, a hyphen, two digits,
   * and nothing else (`\d` is an ASCII digit; `$` without the `m` flag is the
   * end of the input).
   */
  predicate IsDateShape(s: string)
  {
    && |s| == 10
    && s[4] == '-' && s[7] == '-'
    && AllDigits(s[..4]) && AllDigits(s[5..7]) && AllDigits(s[8..])
  }

  /** The three numbers a shape-valid date spells. */
  datatype Ymd = Ymd(year: nat, month: nat, day: nat)

  function Fields(s: string): Ymd
    requires IsDateShape(s)
  {
    Ymd(DigitsValue(s[..4]), DigitsValue(s[5..7]), DigitsValue(s[8..]))
  }

  /** `n` written with exactly `width` digits, zero-padded on the left. */
  function Pad(n: nat, width: nat): (s: string)
    ensures |s| == width && AllDigits(s)
  {
    if width == 0 then "" else Pad(n / 10, width - 1) + [DigitChar(n % 10)]
  }

  /** The date written as `YYYY-MM-DD`. */
  function FormatDate(d: Ymd): string
    requires d.year < 10000 && d.month < 100 && d.day < 100
  {
    Pad(d.year, 4) + "-" + Pad(d.month, 2) + "-" + Pad(d.day, 2)
  }

  // ---------------------------------------------------------------------
  // Digits: padding, value, bounds
  // ---------------------------------------------------------------------

  lemma {:induction false} PadValue(n: nat, width: nat)
    requires n < Pow10(width)
    ensures DigitsValue(Pad(n, width)) == n
  {
    if width > 0 {
      var s := Pad(n, width);
      assert s[..width - 1] == Pad(n / 10, width - 1);
      PadValue(n / 10, width - 1);
    }
  }

  lemma {:induction false} ValuePad(s: string)
    requires AllDigits(s)
    ensures Pad(DigitsValue(s), |s|) == s
  {
    if |s| > 0 {
      var init := s[..|s| - 1];
      ValuePad(init);
      var v := DigitsValue(s);
      assert v / 10 == DigitsValue(init) && v % 10 == DigitValue(s[|s| - 1]);
      assert s == init + [s[|s| - 1]];
    }
  }

  lemma {:induction false} DigitsValueBound(s: string)
    requires AllDigits(s)
    ensures DigitsValue(s) < Pow10(|s|)
  {
    if |s| > 0 {
      DigitsValueBound(s[..|s| - 1]);
    }
  }

  /** Reading a digit string from the most significant digit. */
  lemma {:induction false} DigitsValueFront(s: string)
    requires AllDigits(s) && |s| > 0
    ensures DigitsValue(s) == DigitValue(s[0]) * Pow10(|s| - 1) + DigitsValue(s[1..])
  {
    var n := |s|;
    if n > 1 {
      var init := s[..n - 1];
      DigitsValueFront(init);
      assert init[1..] == s[1..][..n - 2];
      var v := DigitsValue(init[1..]);
      var last := DigitValue(s[n - 1]);
      assert DigitsValue(s) == 10 * (DigitValue(s[0]) * Pow10(n - 2) + v) + last;
      assert DigitsValue(s[1..]) == 10 * v + last;
      ShiftDigit(DigitValue(s[0]), Pow10(n - 2), v, last);
    }
  }

  lemma ShiftDigit(d: nat, p: nat, v: nat, last: nat)
    ensures 10 * (d * p + v) + last == d * (10 * p) + (10 * v + last)
  {
  }

  /** Leading digits decide a comparison; equal leading digits leave it to the rest. */
  lemma ScaledOrder(x: nat, y: nat, p: nat, u: nat, v: nat)
    requires u < p && v < p
    ensures x < y ==> x * p + u < y * p + v
    ensures y < x ==> y * p + v < x * p + u
    ensures x == y ==> (x * p + u < y * p + v <==> u < v)
  {
    if x < y {
      ScaledGap(x, y - x - 1, p);
    } else if y < x {
      ScaledGap(y, x - y - 1, p);
    }
  }

  lemma ScaledGap(x: nat, k: nat, p: nat)
    ensures (x + 1 + k) * p == x * p + p + k * p
    ensures k * p >= 0
  {
  }

  /** For digit strings of one length, the text order is the numeric order. */
  lemma {:induction false} DigitsLess(a: string, b: string)
    requires AllDigits(a) && AllDigits(b) && |a| == |b|
    ensures Less(a, b) <==> DigitsValue(a) < DigitsValue(b)
    decreases |a|
  {
    if |a| > 0 {
      DigitsValueFront(a);
      DigitsValueFront(b);
      DigitsLess(a[1..], b[1..]);
      DigitsValueBound(a[1..]);
      DigitsValueBound(b[1..]);
      ScaledOrder(DigitValue(a[0]), DigitValue(b[0]), Pow10(|a| - 1), DigitsValue(a[1..]), DigitsValue(b[1..]));
    }
  }

  /** Two digit strings of one length with the same value are the same string. */
  lemma DigitsInjective(a: string, b: string)
    requires AllDigits(a) && AllDigits(b) && |a| == |b|
    requires DigitsValue(a) == DigitsValue(b)
    ensures a == b
  {
    ValuePad(a);
    ValuePad(b);
  }

  // ---------------------------------------------------------------------
  // Round trip between the shape and its fields
  // ---------------------------------------------------------------------

  /** Every zero-padded date passes the shape test and reads back to its fields. */
  lemma FormatDateRoundTrip(d: Ymd)
    requires d.year < 10000 && d.month < 100 && d.day < 100
    ensures IsDateShape(FormatDate(d))
    ensures Fields(FormatDate(d)) == d
  {
    var s := FormatDate(d);
    assert s[..4] == Pad(d.year, 4);
    assert s[5..7] == Pad(d.month, 2);
    assert s[8..] == Pad(d.day, 2);
    PadValue(d.year, 4);
    PadValue(d.month, 2);
    PadValue(d.day, 2);
  }

  /** Every shape-valid string is the zero-padded rendering of its fields. */
  lemma FieldsRoundTrip(s: string)
    requires IsDateShape(s)
    ensures Fields(s).year < 10000 && Fields(s).month < 100 && Fields(s).day < 100
    ensures FormatDate(Fields(s)) == s
  {
    DigitsValueBound(s[..4]);
    DigitsValueBound(s[5..7]);
    DigitsValueBound(s[8..]);
    ValuePad(s[..4]);
    ValuePad(s[5..7]);
    ValuePad(s[8..]);
    assert s == s[..4] + "-" + s[5..7] + "-" + s[8..];
  }

  /** No calendar check: a thirtieth of February and a month 99 pass. */
  lemma ShapeOnly()
    ensures IsDateShape("2024-02-30") && IsDateShape("2024-99-99")
    ensures !IsDateShape("2024-2-3") && !IsDateShape("2024-02-03T00:00")
  {
  }

  // ---------------------------------------------------------------------
  // Date order
  // ---------------------------------------------------------------------

  /** The day number `YYYYMMDD` of a shape-valid date. */
  function DayNumber(s: string): nat
    requires IsDateShape(s)
  {
    var f := Fields(s);
    f.year * 10000 + f.month * 100 + f.day
  }

  /**
   * For shape-valid dates, comparing the text agrees with comparing year,
   * then month, then day; so a table sorted or filtered by the text is
   * sorted or filtered by the date.
   */
  lemma LessIsChronological(a: string, b: string)
    requires IsDateShape(a) && IsDateShape(b)
    ensures Less(a, b) <==> DayNumber(a) < DayNumber(b)
  {
    var fa, fb := Fields(a), Fields(b);
    TextOrder(a, b);
    DigitsLess(a[..4], b[..4]);
    DigitsLess(a[5..7], b[5..7]);
    DigitsLess(a[8..], b[8..]);
    if fa.year == fb.year { DigitsInjective(a[..4], b[..4]); }
    if fa.month == fb.month { DigitsInjective(a[5..7], b[5..7]); }
    DigitsValueBound(a[5..7]);
    DigitsValueBound(b[5..7]);
    DigitsValueBound(a[8..]);
    DigitsValueBound(b[8..]);
    NumberOrder(fa, fb);
  }

  /** The text order of two dates compares the year digits, then the month's, then the day's. */
  lemma TextOrder(a: string, b: string)
    requires IsDateShape(a) && IsDateShape(b)
    ensures Less(a, b) <==>
      || Less(a[..4], b[..4])
      || (a[..4] == b[..4] && (Less(a[5..7], b[5..7]) || (a[5..7] == b[5..7] && Less(a[8..], b[8..]))))
  {
    SplitAt(a, 4); SplitAt(b, 4);
    SplitAt(a[4..], 1); SplitAt(b[4..], 1);
    SplitAt(a[5..], 2); SplitAt(b[5..], 2);
    SplitAt(a[7..], 1); SplitAt(b[7..], 1);
    var ha, hb := a[4..5], b[4..5];
    assert a[4..][..1] == ha && a[4..][1..] == a[5..] && b[4..][..1] == hb && b[4..][1..] == b[5..];
    assert a[5..][..2] == a[5..7] && a[5..][2..] == a[7..] && b[5..][..2] == b[5..7] && b[5..][2..] == b[7..];
    assert a[7..][..1] == a[7..8] && a[7..][1..] == a[8..] && b[7..][..1] == b[7..8] && b[7..][1..] == b[8..];
    assert ha == [a[4]] == hb && a[7..8] == [a[7]] == b[7..8];
    LessConcat(a[..4], a[4..], b[..4], b[4..]);
    LessConcat(ha, a[5..], hb, b[5..]);
    LessIrreflexive(ha);
    LessConcat(a[5..7], a[7..], b[5..7], b[7..]);
    LessConcat(a[7..8], a[8..], b[7..8], b[8..]);
    LessIrreflexive(a[7..8]);
  }

  lemma SplitAt(s: string, i: nat)
    requires i <= |s|
    ensures s == s[..i] + s[i..]
  {
  }

  /** Day numbers compare years, then months, then days, when months and days stay below 100. */
  lemma NumberOrder(fa: Ymd, fb: Ymd)
    requires fa.month < 100 && fb.month < 100 && fa.day < 100 && fb.day < 100
    ensures fa.year * 10000 + fa.month * 100 + fa.day < fb.year * 10000 + fb.month * 100 + fb.day <==>
      || fa.year < fb.year
      || (fa.year == fb.year && (fa.month < fb.month || (fa.month == fb.month && fa.day < fb.day)))
  {
    ScaledOrder(fa.month, fb.month, 100, fa.day, fb.day);
    assert fa.year * 10000 == (fa.year * 100) * 100 && fb.year * 10000 == (fb.year * 100) * 100;
    ScaledOrder(fa.year, fb.year, 10000, fa.month * 100 + fa.day, fb.month * 100 + fb.day);
  }
}
