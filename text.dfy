/**
 * Strings as the handlers see them: the code-point order that text and
 * date keys are sorted by, `Array.prototype.join` and its inverse, and the
 * decimal renderings the CSV export writes (`String(n)` and `toFixed(2)`
 * of an amount held in integer cents).
 */
module Text {
  import opened Common

  // ---------------------------------------------------------------------
  // Lexicographic order on strings
  // ---------------------------------------------------------------------

  /** `a` sorts strictly before `b`: a proper prefix, or smaller at the first difference. */
  predicate Less(a: string, b: string)
    decreases |a|
  {
    |b| > 0 && (|a| == 0 || a[0] < b[0] || (a[0] == b[0] && Less(a[1..], b[1..])))
  }

  lemma {:induction false} LessIrreflexive(a: string)
    ensures !Less(a, a)
    decreases |a|
  {
    if |a| > 0 {
      LessIrreflexive(a[1..]);
    }
  }

  lemma {:induction false} LessAsymmetric(a: string, b: string)
    requires Less(a, b)
    ensures !Less(b, a)
    decreases |a|
  {
    if |a| > 0 && a[0] == b[0] {
      LessAsymmetric(a[1..], b[1..]);
    }
  }

  lemma {:induction false} LessTransitive(a: string, b: string, c: string)
    requires Less(a, b) && Less(b, c)
    ensures Less(a, c)
    decreases |a|
  {
    if |a| > 0 && a[0] == b[0] && b[0] == c[0] {
      LessTransitive(a[1..], b[1..], c[1..]);
    }
  }

  /** Any two different strings are ordered one way or the other. */
  lemma {:induction false} LessTotal(a: string, b: string)
    ensures a == b || Less(a, b) || Less(b, a)
    decreases |a|
  {
    if |a| > 0 && |b| > 0 && a[0] == b[0] {
      LessTotal(a[1..], b[1..]);
      if a[1..] == b[1..] {
        assert a == [a[0]] + a[1..] && b == [b[0]] + b[1..];
      }
    }
  }

  /** Comparing two concatenations whose first parts have the same length. */
  lemma {:induction false} LessConcat(p: string, q: string, p': string, q': string)
    requires |p| == |p'|
    ensures Less(p + q, p' + q') <==> (Less(p, p') || (p == p' && Less(q, q')))
    decreases |p|
  {
    if |p| == 0 {
      assert p + q == q && p' + q' == q';
    } else {
      assert (p + q)[0] == p[0] && (p' + q')[0] == p'[0];
      assert (p + q)[1..] == p[1..] + q && (p' + q')[1..] == p'[1..] + q';
      LessConcat(p[1..], q, p'[1..], q');
      if p[0] == p'[0] && p[1..] == p'[1..] {
        assert p == [p[0]] + p[1..] && p' == [p'[0]] + p'[1..];
      }
      if p == p' {
        assert p[1..] == p'[1..];
      }
    }
  }

  /** Strictly ascending: sorted and free of duplicates. */
  ghost predicate StrictlyAscending(s: seq<string>)
  {
    forall i, j :: 0 <= i < j < |s| ==> Less(s[i], s[j])
  }

  /** Inserts `x` into a strictly ascending sequence unless it is already there. */
  function InsertName(s: seq<string>, x: string): (r: seq<string>)
    requires StrictlyAscending(s)
    ensures StrictlyAscending(r)
    ensures forall y :: y in r <==> y in s || y == x
  {
    if s == [] then [x]
    else if x == s[0] then s
    else if Less(x, s[0]) then
      assert forall j :: 0 < j < |s| ==> Less(x, s[j]) by {
        forall j | 0 < j < |s| ensures Less(x, s[j]) { LessTransitive(x, s[0], s[j]); }
      }
      [x] + s
    else
      LessTotal(x, s[0]);
      var rest := InsertName(s[1..], x);
      assert forall y :: y in rest ==> Less(s[0], y) by {
        forall y | y in rest ensures Less(s[0], y) {
          if y != x {
            var j :| 0 <= j < |s[1..]| && s[1..][j] == y;
            assert s[j + 1] == y;
          }
        }
      }
      [s[0]] + rest
  }

  // ---------------------------------------------------------------------
  // Array.prototype.join and its inverse
  // ---------------------------------------------------------------------

  /** `fields.join(sep)`: the fields separated by one `sep` each. */
  function Join(fields: seq<string>, sep: char): string
  {
    if |fields| == 0 then ""
    else if |fields| == 1 then fields[0]
    else fields[0] + [sep] + Join(fields[1..], sep)
  }

  /** Cuts a line at every `sep`; a line without `sep` is one field. */
  function Split(s: string, sep: char): (r: seq<string>)
    ensures |r| >= 1
  {
    if |s| == 0 then [""]
    else
      var rest := Split(s[1..], sep);
      if s[0] == sep then [""] + rest else [[s[0]] + rest[0]] + rest[1..]
  }

  lemma {:induction false} SplitFree(f: string, t: string, sep: char)
    requires sep !in f
    ensures Split(f + t, sep) == [f + Split(t, sep)[0]] + Split(t, sep)[1..]
    decreases |f|
  {
    if |f| > 0 {
      assert (f + t)[0] == f[0] && (f + t)[1..] == f[1..] + t;
      SplitFree(f[1..], t, sep);
      assert [f[0]] + (f[1..] + Split(t, sep)[0]) == f + Split(t, sep)[0];
    } else {
      var r := Split(t, sep);
      assert f + t == t && f + r[0] == r[0];
      assert r == [r[0]] + r[1..];
    }
  }

  /** Splitting a joined line gives back the fields when no field holds the separator. */
  lemma {:induction false} SplitJoin(fields: seq<string>, sep: char)
    requires |fields| >= 1
    requires forall k :: 0 <= k < |fields| ==> sep !in fields[k]
    ensures Split(Join(fields, sep), sep) == fields
    decreases |fields|
  {
    if |fields| == 1 {
      SplitFree(fields[0], "", sep);
      assert fields[0] + "" == fields[0];
    } else {
      var tail := Join(fields[1..], sep);
      SplitJoin(fields[1..], sep);
      assert fields[0] + [sep] + tail == fields[0] + ([sep] + tail);
      SplitFree(fields[0], [sep] + tail, sep);
      assert Split([sep] + tail, sep) == [""] + Split(tail, sep) by {
        assert ([sep] + tail)[1..] == tail;
      }
      assert fields[0] + "" == fields[0];
      assert fields == [fields[0]] + fields[1..];
    }
  }

  // ---------------------------------------------------------------------
  // Decimal digits
  // ---------------------------------------------------------------------

  predicate IsDigit(c: char)
  {
    '0' <= c <= '9'
  }

  predicate AllDigits(s: string)
  {
    forall k :: 0 <= k < |s| ==> IsDigit(s[k])
  }

  function DigitChar(d: nat): (c: char)
    requires d < 10
    ensures IsDigit(c) && c as int == 48 + d
  {
    (48 + d) as char
  }

  function DigitValue(c: char): (d: nat)
    requires IsDigit(c)
    ensures d < 10 && DigitChar(d) == c
  {
    (c as int - 48) as nat
  }

  function Pow10(n: nat): (p: nat)
    ensures p >= 1
  {
    if n == 0 then 1 else 10 * Pow10(n - 1)
  }

  /** The number a string of decimal digits denotes (most significant first). */
  function DigitsValue(s: string): nat
    requires AllDigits(s)
  {
    if |s| == 0 then 0 else 10 * DigitsValue(s[..|s| - 1]) + DigitValue(s[|s| - 1])
  }

  /** `String(n)` for a non-negative integer: its shortest decimal rendering. */
  function NatToString(n: nat): (s: string)
    ensures |s| >= 1 && AllDigits(s)
  {
    if n < 10 then [DigitChar(n)] else NatToString(n / 10) + [DigitChar(n % 10)]
  }

  /** Reading back the rendering of a number gives the number. */
  lemma {:induction false} NatToStringRoundTrip(n: nat)
    ensures DigitsValue(NatToString(n)) == n
  {
    if n >= 10 {
      var s := NatToString(n);
      assert s[..|s| - 1] == NatToString(n / 10);
      NatToStringRoundTrip(n / 10);
    }
  }

  /** `String(i)` for an integer. */
  function IntToString(i: int): string
  {
    if i < 0 then "-" + NatToString(-i) else NatToString(i)
  }

  /** Two digits of the cents, `00` to `99`. */
  function TwoDigits(c: nat): (s: string)
    requires c < 100
    ensures |s| == 2 && AllDigits(s) && DigitsValue(s) == c
  {
    var s := [DigitChar(c / 10), DigitChar(c % 10)];
    assert s[..1] == [DigitChar(c / 10)] && s[..1][..0] == [];
    assert DigitsValue(s[..1]) == c / 10;
    s
  }

  /** `(cents / 100).toFixed(2)` for an amount held exactly in integer cents. */
  function Cents(amount: int): string
  {
    var a := if amount < 0 then -amount else amount;
    (if amount < 0 then "-" else "") + NatToString(a / 100) + "." + TwoDigits(a % 100)
  }

  /** Reads an unsigned amount written as digits, a point and exactly two digits. */
  function ReadUnsignedCents(s: string): Option<int>
  {
    if |s| >= 4 && s[|s| - 3] == '.' && AllDigits(s[..|s| - 3]) && AllDigits(s[|s| - 2..]) then
      Some(100 * DigitsValue(s[..|s| - 3]) + DigitsValue(s[|s| - 2..]))
    else
      None
  }

  /** Reads an amount written by `Cents`, with an optional leading minus sign. */
  function ReadCents(s: string): Option<int>
  {
    if |s| > 0 && s[0] == '-' then
      match ReadUnsignedCents(s[1..])
      case Some(v) => Some(-v)
      case None => None
    else ReadUnsignedCents(s)
  }

  /** The two-decimal rendering loses nothing: reading it back gives the amount. */
  lemma CentsRoundTrip(amount: int)
    ensures ReadCents(Cents(amount)) == Some(amount)
  {
    var a := if amount < 0 then -amount else amount;
    var u := NatToString(a / 100) + "." + TwoDigits(a % 100);
    assert u[..|u| - 3] == NatToString(a / 100);
    assert u[|u| - 2..] == TwoDigits(a % 100);
    NatToStringRoundTrip(a / 100);
    assert ReadUnsignedCents(u) == Some(a);
    if amount < 0 {
      assert Cents(amount) == "-" + u;
      assert ("-" + u)[1..] == u;
    } else {
      assert Cents(amount) == u;
      assert u[0] != '-';
    }
  }
}
