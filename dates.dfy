/**
 * Calendar dates as Python's `datetime.date` holds them, the step back by one
 * day that `date - timedelta(days=1)` takes, and `strftime("%Y%m%d")`.
 */
module Dates {
  import opened Wrappers
  import opened Text

  datatype Date = Date(year: int, month: int, day: int)

  predicate Leap(y: int) {
    y % 4 == 0 && (y % 100 != 0 || y % 400 == 0)
  }

  function DaysIn(y: int, m: int): int {
    if m == 2 then (if Leap(y) then 29 else 28)
    else if m == 4 || m == 6 || m == 9 || m == 11 then 30
    else 31
  }

  /** The dates `datetime.date` can hold: years 1 to 9999. */
  predicate Valid(d: Date) {
    1 <= d.year <= 9999 && 1 <= d.month <= 12 && 1 <= d.day <= DaysIn(d.year, d.month)
  }

  /** Calendar order. */
  predicate Before(a: Date, b: Date) {
    a.year < b.year || (a.year == b.year && (a.month < b.month || (a.month == b.month && a.day < b.day)))
  }

  /** `d - timedelta(days=1)`; `None` where Python raises `OverflowError` (before 1 January of year 1). */
  function Prev(d: Date): (r: Option<Date>)
    requires Valid(d)
    ensures r.Some? ==> Valid(r.value) && Before(r.value, d)
    ensures r.None? <==> d == Date(1, 1, 1)
  {
    if d.day > 1 then Some(Date(d.year, d.month, d.day - 1))
    else if d.month > 1 then Some(Date(d.year, d.month - 1, DaysIn(d.year, d.month - 1)))
    else if d.year > 1 then Some(Date(d.year - 1, 12, 31))
    else None
  }

  /** `d - timedelta(days=i)`, one day at a time. */
  function Back(d: Date, i: nat): (r: Option<Date>)
    requires Valid(d)
    ensures r.Some? ==> Valid(r.value)
    ensures r.Some? && i > 0 ==> Before(r.value, d)
  {
    if i == 0 then Some(d)
    else match Back(d, i - 1)
      case Some(e) => Prev(e)
      case None => None
  }

  lemma BeforeTrans(a: Date, b: Date, c: Date)
    requires Before(a, b) && Before(b, c)
    ensures Before(a, c)
  {
  }

  /** Going further back never comes forward again: later steps give earlier dates. */
  lemma {:induction false} BackMonotone(d: Date, i: nat, j: nat)
    requires Valid(d) && i < j && Back(d, j).Some?
    ensures Back(d, i).Some? && Before(Back(d, j).value, Back(d, i).value)
    decreases j
  {
    var e := Back(d, j - 1);
    assert e.Some?;
    if i < j - 1 {
      BackMonotone(d, i, j - 1);
      BeforeTrans(Back(d, j).value, e.value, Back(d, i).value);
    }
  }

  /** `n` written with at least `w` digits, zeros in front (`f"{n:0{w}d}"`). */
  function Pad(n: nat, w: nat): (s: string)
    ensures AllDigits(s) && |s| >= w
  {
    PadLeft(NatToString(n), w, '0')
  }

  /** `d.strftime("%Y%m%d")`. */
  function Yyyymmdd(d: Date): string
    requires Valid(d)
  {
    Pad(d.year, 4) + Pad(d.month, 2) + Pad(d.day, 2)
  }

  /** The number a digit string spells, read as two parts. */
  lemma {:induction false} DigitsValueAppend(a: string, b: string)
    requires AllDigits(a) && AllDigits(b)
    ensures AllDigits(a + b)
    ensures DigitsValue(a + b) == DigitsValue(a) * Pow10(|b|) + DigitsValue(b)
    decreases |b|
  {
    if b != [] {
      var c := a + b;
      var init := b[..|b| - 1];
      assert AllDigits(c) && AllDigits(init);
      DigitsValueAppend(a, init);
      assert c[..|c| - 1] == a + init;
      assert c[|c| - 1] == b[|b| - 1];
      assert DigitsValue(c) == DigitsValue(a + init) * 10 + DigitValue(b[|b| - 1]);
      assert DigitsValue(b) == DigitsValue(init) * 10 + DigitValue(b[|b| - 1]);
      ShiftDigit(DigitsValue(a), Pow10(|init|), DigitsValue(init), DigitValue(b[|b| - 1]));
    } else {
      assert a + b == a;
    }
  }

  /** One more digit on the right multiplies the earlier part by ten. */
  lemma ShiftDigit(x: nat, p: nat, y: nat, d: nat)
    ensures (x * p + y) * 10 + d == x * (10 * p) + (y * 10 + d)
  {
  }

  /** A digit string is less than ten to its length. */
  lemma {:induction false} DigitsValueBound(s: string)
    requires AllDigits(s)
    ensures DigitsValue(s) < Pow10(|s|)
  {
    if s != [] {
      DigitsValueBound(s[..|s| - 1]);
    }
  }

  /** A number below ten to the `k` needs at most `k` digits. */
  lemma {:induction false} NatToStringLength(n: nat, k: nat)
    requires 1 <= k && n < Pow10(k)
    ensures |NatToString(n)| <= k
  {
    if n >= 10 {
      assert k >= 2;
      NatToStringLength(n / 10, k - 1);
    }
  }

  /** Zero padding keeps the value and gives exactly `w` digits to a number that fits. */
  lemma PadValue(n: nat, w: nat)
    requires 1 <= w && n < Pow10(w)
    ensures |Pad(n, w)| == w && DigitsValue(Pad(n, w)) == n
  {
    var s := NatToString(n);
    NatToStringLength(n, w);
    NatToStringValue(n);
    if |s| < w {
      assert Pad(n, w) == seq(w - |s|, _ => '0') + s;
      LeadingZeros(w - |s|, s);
    }
  }

  /** A year below 10000, a month and a day below 100, zero-padded to 4, 2 and 2 digits, spell the stamp. */
  lemma PaddedStamp(y: nat, m: nat, d: nat)
    requires y < 10000 && m < 100 && d < 100
    ensures AllDigits(Pad(y, 4) + Pad(m, 2) + Pad(d, 2))
    ensures |Pad(y, 4) + Pad(m, 2) + Pad(d, 2)| == 8
    ensures DigitsValue(Pad(y, 4) + Pad(m, 2) + Pad(d, 2)) == y * 10000 + m * 100 + d
  {
    assert Pow10(2) == 100;
    assert Pow10(4) == 10000;
    PadValue(y, 4);
    PadValue(m, 2);
    PadValue(d, 2);
    var ys := Pad(y, 4);
    var ms := Pad(m, 2);
    var ds := Pad(d, 2);
    DigitsValueAppend(ys, ms);
    var ym := DigitsValue(ys + ms);
    assert ym == y * 100 + m;
    DigitsValueAppend(ys + ms, ds);
    assert DigitsValue(ys + ms + ds) == ym * 100 + d;
  }

  /** Eight digits that spell year, month and day. */
  lemma YyyymmddValue(d: Date)
    requires Valid(d)
    ensures |Yyyymmdd(d)| == 8 && AllDigits(Yyyymmdd(d))
    ensures DigitsValue(Yyyymmdd(d)) == Stamp(d)
  {
    PaddedStamp(d.year, d.month, d.day);
  }

  /** The number `Yyyymmdd` spells. */
  function Stamp(d: Date): int {
    d.year * 10000 + d.month * 100 + d.day
  }

  /** Calendar order is the order of the stamps. */
  lemma StampOrder(a: Date, b: Date)
    requires Valid(a) && Valid(b)
    ensures Before(a, b) <==> Stamp(a) < Stamp(b)
  {
  }

  /** Among digit strings of one length, dictionary order is numeric order. */
  lemma {:induction false} LexIsNumeric(a: string, b: string)
    requires |a| == |b| && AllDigits(a) && AllDigits(b)
    ensures LexLe(a, b) <==> DigitsValue(a) <= DigitsValue(b)
    decreases |a|
  {
    if a != [] {
      var ta, tb := a[1..], b[1..];
      LeadingDigit(a);
      LeadingDigit(b);
      DigitsValueBound(ta);
      DigitsValueBound(tb);
      LexIsNumeric(ta, tb);
      assert IsDigit(a[0]) && IsDigit(b[0]);
      DigitOrder(DigitValue(a[0]), DigitValue(b[0]), Pow10(|a| - 1), DigitsValue(ta), DigitsValue(tb));
      assert a[0] < b[0] <==> DigitValue(a[0]) < DigitValue(b[0]);
    }
  }

  /** The first digit counts its place value, the rest of the string the remainder. */
  lemma LeadingDigit(a: string)
    requires a != [] && AllDigits(a)
    ensures AllDigits(a[1..]) && IsDigit(a[0])
    ensures DigitsValue(a) == DigitValue(a[0]) * Pow10(|a| - 1) + DigitsValue(a[1..])
  {
    assert a == [a[0]] + a[1..];
    assert AllDigits([a[0]]);
    DigitsValueAppend([a[0]], a[1..]);
    assert DigitsValue([a[0]]) == DigitValue(a[0]) by { assert [a[0]][..0] == []; }
  }

  /** Two numbers of one length compare by their leading digits first, then by what follows. */
  lemma DigitOrder(x: nat, y: nat, p: nat, u: nat, v: nat)
    requires u < p && v < p
    ensures x * p + u <= y * p + v <==> x < y || (x == y && u <= v)
  {
    if x < y {
      MulMono(x + 1, y, p);
    } else if y < x {
      MulMono(y + 1, x, p);
    }
  }

  lemma MulMono(i: nat, j: nat, p: nat)
    requires i <= j
    ensures i * p <= j * p
  {
  }

  /**
   * File names stamped with `Yyyymmdd` sort as their dates do: the one that
   * sorts last is the latest day.
   */
  lemma NamesSortByDate(a: Date, b: Date)
    requires Valid(a) && Valid(b)
    ensures LexLe(Yyyymmdd(a), Yyyymmdd(b)) <==> !Before(b, a)
  {
    YyyymmddValue(a);
    YyyymmddValue(b);
    LexIsNumeric(Yyyymmdd(a), Yyyymmdd(b));
    StampOrder(b, a);
  }
}
