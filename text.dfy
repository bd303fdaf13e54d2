/**
 * String helpers with Python's meaning: `str.strip`, `str.upper`, `str.split`,
 * `str.join`, `in` on strings, decimal formatting of integers and the parts of
 * `float()`/`int()` the pipeline relies on.
 */
module Text {
  import opened Wrappers

  /** Python's `str.isspace()`: the characters `str.strip()` removes. */
  predicate IsSpace(c: char) {
    || c == ' '
    || ('\t' <= c <= '\r')
    || ('\U{1c}' <= c <= '\U{1f}')
    || c == '\U{85}' || c == '\U{a0}' || c == '\U{1680}'
    || ('\U{2000}' <= c <= '\U{200a}')
    || c == '\U{2028}' || c == '\U{2029}' || c == '\U{202f}' || c == '\U{205f}'
    || c == '\U{3000}'
  }

  predicate IsDigit(c: char) {
    '0' <= c <= '9'
  }

  predicate IsAsciiLetter(c: char) {
    ('a' <= c <= 'z') || ('A' <= c <= 'Z')
  }

  /** `str.isalnum()` restricted to ASCII letters and digits. */
  predicate IsAlnum(c: char) {
    IsDigit(c) || IsAsciiLetter(c)
  }

  predicate AllDigits(s: string) {
    forall i :: 0 <= i < |s| ==> IsDigit(s[i])
  }

  /** What a strip removes: Python's whitespace (`str.strip()`) or the characters given (`str.strip(chars)`). */
  datatype Chars = Whitespace | Only(cs: set<char>)

  predicate Drops(k: Chars, c: char) {
    match k
    case Whitespace => IsSpace(c)
    case Only(cs) => c in cs
  }

  /** Removes the leading characters of class `k`. */
  function DropLeading(s: string, k: Chars): (r: string)
    ensures |r| <= |s|
    ensures r == [] || !Drops(k, r[0])
  {
    if s == [] || !Drops(k, s[0]) then s else DropLeading(s[1..], k)
  }

  /** Removes the trailing characters of class `k`. */
  function DropTrailing(s: string, k: Chars): (r: string)
    ensures |r| <= |s|
    ensures r == [] || !Drops(k, r[|r| - 1])
  {
    if s == [] || !Drops(k, s[|s| - 1]) then s else DropTrailing(s[..|s| - 1], k)
  }

  /** What `DropLeading` leaves is a suffix of the text. */
  lemma {:induction false} DropLeadingSuffix(s: string, k: Chars)
    ensures DropLeading(s, k) == s[|s| - |DropLeading(s, k)|..]
  {
    if s != [] && Drops(k, s[0]) {
      DropLeadingSuffix(s[1..], k);
    }
  }

  /** What `DropTrailing` leaves is a prefix of the text. */
  lemma {:induction false} DropTrailingPrefix(s: string, k: Chars)
    ensures DropTrailing(s, k) == s[..|DropTrailing(s, k)|]
  {
    if s != [] && Drops(k, s[|s| - 1]) {
      DropTrailingPrefix(s[..|s| - 1], k);
    }
  }

  /** `s.strip(chars)`: both ends, for the character class `k`. */
  function StripBy(s: string, k: Chars): (r: string)
    ensures r == [] || (!Drops(k, r[0]) && !Drops(k, r[|r| - 1]))
  {
    var l := DropLeading(s, k);
    DropTrailingPrefix(l, k);
    DropTrailing(l, k)
  }

  /** A strip keeps a run of the original characters: nothing new appears. */
  lemma StripByMembers(s: string, k: Chars)
    ensures forall c :: c in StripBy(s, k) ==> c in s
  {
    var l := DropLeading(s, k);
    var r := DropTrailing(l, k);
    DropLeadingSuffix(s, k);
    DropTrailingPrefix(l, k);
    forall c | c in r
      ensures c in s
    {
      var i :| 0 <= i < |r| && r[i] == c;
      assert l[i] == c;
      assert s[|s| - |l| + i] == c;
    }
  }

  /** `s.strip()` with no argument. */
  function Strip(s: string): string {
    StripBy(s, Whitespace)
  }

  /** A string with no blank at either end is already stripped. */
  lemma StripKeeps(s: string)
    requires s == [] || (!IsSpace(s[0]) && !IsSpace(s[|s| - 1]))
    ensures Strip(s) == s
  {
    if s != [] {
      assert DropLeading(s, Whitespace) == s;
      assert DropTrailing(s, Whitespace) == s;
    }
  }

  /** A digit is neither a blank nor a sign. */
  lemma DigitNotSign(c: char)
    requires IsDigit(c)
    ensures !IsSpace(c) && c != '-' && c != '+'
  {
  }

  /** Stripping twice strips no more. */
  lemma StripTwice(s: string)
    ensures Strip(Strip(s)) == Strip(s)
  {
    StripKeeps(Strip(s));
  }

  /** `s.rstrip()` with no argument. */
  function RStrip(s: string): string {
    DropTrailing(s, Whitespace)
  }

  function UpperChar(c: char): char {
    if 'a' <= c <= 'z' then (c as int - 32) as char else c
  }

  function LowerChar(c: char): char {
    if 'A' <= c <= 'Z' then (c as int + 32) as char else c
  }

  /** `str.upper()` on ASCII letters. */
  function Upper(s: string): (r: string)
    ensures |r| == |s|
  {
    seq(|s|, i requires 0 <= i < |s| => UpperChar(s[i]))
  }

  /** `str.lower()` on ASCII letters. */
  function Lower(s: string): (r: string)
    ensures |r| == |s|
  {
    seq(|s|, i requires 0 <= i < |s| => LowerChar(s[i]))
  }

  predicate StartsWith(s: string, p: string) {
    |p| <= |s| && s[..|p|] == p
  }

  predicate EndsWith(s: string, p: string) {
    |p| <= |s| && s[|s| - |p|..] == p
  }

  /** Python's `t in s` for strings. */
  predicate Contains(s: string, t: string)
    decreases |s|
  {
    StartsWith(s, t) || (s != [] && Contains(s[1..], t))
  }

  /** The index of the first `c` in `s`, or `|s|` when there is none. */
  function IndexOf(s: string, c: char): (k: nat)
    ensures k <= |s|
    ensures c !in s[..k]
    ensures k < |s| ==> s[k] == c
  {
    if s == [] then 0 else if s[0] == c then 0 else 1 + IndexOf(s[1..], c)
  }

  /** `sep.join(parts)`. */
  function Join(parts: seq<string>, sep: string): string {
    if |parts| == 0 then ""
    else if |parts| == 1 then parts[0]
    else parts[0] + sep + Join(parts[1..], sep)
  }

  /** `s.split(sep)` for a one-character separator. */
  function Split(s: string, sep: char): (parts: seq<string>)
    ensures |parts| >= 1
    ensures forall k :: 0 <= k < |parts| ==> sep !in parts[k]
    decreases |s|
  {
    var k := IndexOf(s, sep);
    if k == |s| then [s] else [s[..k]] + Split(s[k + 1..], sep)
  }

  /** Splitting and joining again with the same separator gives the string back. */
  lemma {:induction false} JoinSplit(s: string, sep: char)
    ensures Join(Split(s, sep), [sep]) == s
    decreases |s|
  {
    var k := IndexOf(s, sep);
    if k < |s| {
      var rest := Split(s[k + 1..], sep);
      assert Split(s, sep) == [s[..k]] + rest;
      JoinCons(s[..k], rest, [sep]);
      JoinSplit(s[k + 1..], sep);
      assert s == s[..k] + [sep] + s[k + 1..];
    }
  }

  /** Joining a list with a first part: that part, the separator, then the rest joined. */
  lemma JoinCons(a: string, rest: seq<string>, sep: string)
    requires |rest| >= 1
    ensures Join([a] + rest, sep) == a + sep + Join(rest, sep)
  {
    assert ([a] + rest)[1..] == rest;
  }

  function DigitChar(d: nat): char
    requires d < 10
  {
    ('0' as int + d) as char
  }

  function DigitValue(c: char): nat
    requires IsDigit(c)
  {
    c as int - '0' as int
  }

  /** The value of a string of decimal digits (`int("0042") == 42`). */
  function DigitsValue(s: string): nat
    requires AllDigits(s)
  {
    if s == [] then 0 else DigitsValue(s[..|s| - 1]) * 10 + DigitValue(s[|s| - 1])
  }

  /** `str(n)` for a natural number. */
  function NatToString(n: nat): (r: string)
    ensures |r| >= 1 && AllDigits(r)
    ensures |r| > 1 ==> r[0] != '0'
  {
    if n < 10 then [DigitChar(n)] else NatToString(n / 10) + [DigitChar(n % 10)]
  }

  lemma {:induction false} NatToStringValue(n: nat)
    ensures DigitsValue(NatToString(n)) == n
  {
    var r := NatToString(n);
    if n >= 10 {
      NatToStringValue(n / 10);
      assert r[..|r| - 1] == NatToString(n / 10);
    }
  }

  /** `str(i)` for an integer. */
  function IntToString(i: int): string {
    if i < 0 then "-" + NatToString(-i) else NatToString(i)
  }

  /** `str(b)` for a boolean. */
  function BoolToString(b: bool): string {
    if b then "True" else "False"
  }

  /** Pads `s` on the left with `c` up to width `w` (the `0Nd` format). */
  function PadLeft(s: string, w: nat, c: char): (r: string)
    ensures |r| == if |s| >= w then |s| else w
    ensures r[|r| - |s|..] == s
    ensures forall i :: 0 <= i < |r| - |s| ==> r[i] == c
  {
    if |s| >= w then s else seq(w - |s|, _ => c) + s
  }

  /** Leading zeros do not change the value of a digit string. */
  lemma {:induction false} LeadingZeros(z: nat, s: string)
    requires AllDigits(s)
    ensures AllDigits(seq(z, _ => '0') + s)
    ensures DigitsValue(seq(z, _ => '0') + s) == DigitsValue(s)
    decreases |s|
  {
    var t := seq(z, _ => '0') + s;
    if s == [] {
      assert t == seq(z, _ => '0');
      AllZeros(z);
    } else {
      LeadingZeros(z, s[..|s| - 1]);
      assert t[..|t| - 1] == seq(z, _ => '0') + s[..|s| - 1];
    }
  }

  lemma {:induction false} AllZeros(z: nat)
    ensures AllDigits(seq(z, _ => '0'))
    ensures DigitsValue(seq(z, _ => '0')) == 0
  {
    if z > 0 {
      AllZeros(z - 1);
      assert seq(z, _ => '0')[..z - 1] == seq(z - 1, _ => '0');
    }
  }

  function Pow10(k: nat): (p: nat)
    ensures p >= 1
  {
    if k == 0 then 1 else 10 * Pow10(k - 1)
  }

  /** An unsigned decimal `digits[.digits]` or `.digits`, as `float()` reads it. */
  function ParseUnsigned(s: string): Option<real> {
    var k := IndexOf(s, '.');
    var whole := s[..k];
    var frac := if k < |s| then s[k + 1..] else "";
    if AllDigits(whole) && AllDigits(frac) && |whole| + |frac| >= 1 then
      Some(DigitsValue(whole) as real + DigitsValue(frac) as real / Pow10(|frac|) as real)
    else
      None
  }

  /** A signed decimal without surrounding blanks. */
  function ParseDecimal(s: string): Option<real> {
    if s == [] then None
    else if s[0] == '-' then
      match ParseUnsigned(s[1..])
      case Some(v) => Some(-v)
      case None => None
    else if s[0] == '+' then ParseUnsigned(s[1..])
    else ParseUnsigned(s)
  }

  /** `float(s)`: surrounding blanks are allowed. */
  function PyFloat(s: string): Option<real> {
    ParseDecimal(Strip(s))
  }

  /** `int(s)`: optional sign and decimal digits, surrounding blanks allowed. */
  function PyInt(s: string): Option<int> {
    var t := Strip(s);
    if t != [] && (t[0] == '-' || t[0] == '+') then
      var d := t[1..];
      if d != [] && AllDigits(d) then Some(if t[0] == '-' then -(DigitsValue(d) as int) else DigitsValue(d) as int)
      else None
    else if t != [] && AllDigits(t) then Some(DigitsValue(t) as int)
    else None
  }

  /** `int(x)` of a float: truncation toward zero. */
  function Trunc(x: real): (i: int)
    ensures x >= 0.0 ==> 0 <= i && i as real <= x < i as real + 1.0
    ensures x < 0.0 ==> i <= 0 && i as real - 1.0 < x <= i as real
  {
    if x >= 0.0 then x.Floor else -((-x).Floor)
  }

  /** A string of digits is read by `float()` as the number it spells. */
  lemma ParseDigits(s: string)
    requires s != [] && AllDigits(s)
    ensures ParseDecimal(s) == Some(DigitsValue(s) as real)
  {
    assert IsDigit(s[0]);
    ParseUnsignedDigits(s);
  }

  lemma ParseUnsignedDigits(s: string)
    requires s != [] && AllDigits(s)
    ensures ParseUnsigned(s) == Some(DigitsValue(s) as real)
  {
    DigitsNoDot(s);
    IndexOfAbsent(s, '.');
    assert s[..|s|] == s;
    var frac: string := "";
    assert AllDigits(frac) && DigitsValue(frac) == 0 && Pow10(|frac|) == 1;
    assert DigitsValue(frac) as real / Pow10(|frac|) as real == 0.0;
  }

  /** A string of digits holds no decimal point. */
  lemma DigitsNoDot(s: string)
    requires AllDigits(s)
    ensures '.' !in s
  {
    forall i | 0 <= i < |s|
      ensures s[i] != '.'
    {
      assert IsDigit(s[i]);
    }
  }

  /** A character that does not occur is found at the end. */
  lemma IndexOfAbsent(s: string, c: char)
    requires c !in s
    ensures IndexOf(s, c) == |s|
  {
  }

  /** The number of bytes UTF-8 needs for `c`. */
  function Utf8Width(c: char): (w: nat)
    ensures 1 <= w <= 4
  {
    if c as int < 0x80 then 1 else if c as int < 0x800 then 2 else if c as int < 0x10000 then 3 else 4
  }

  /** The size in bytes of `s` written as UTF-8 (`st_size` after `write_text`). */
  function Utf8Size(s: string): (n: nat)
    ensures n >= |s|
  {
    if s == [] then 0 else Utf8Size(s[..|s| - 1]) + Utf8Width(s[|s| - 1])
  }

  /** Python's `<=` on strings: code point by code point, a prefix first. */
  predicate LexLe(a: string, b: string)
    decreases |a|
  {
    a == [] || (b != [] && (a[0] < b[0] || (a[0] == b[0] && LexLe(a[1..], b[1..]))))
  }

  lemma {:induction false} LexLeTotal(a: string, b: string)
    ensures LexLe(a, b) || LexLe(b, a)
    decreases |a|
  {
    if a != [] && b != [] && a[0] == b[0] {
      LexLeTotal(a[1..], b[1..]);
    }
  }

  lemma {:induction false} LexLeTrans(a: string, b: string, c: string)
    requires LexLe(a, b) && LexLe(b, c)
    ensures LexLe(a, c)
    decreases |a|
  {
    if a != [] && b != [] && c != [] && a[0] == b[0] && b[0] == c[0] {
      LexLeTrans(a[1..], b[1..], c[1..]);
    }
  }

  lemma {:induction false} LexLeAntisym(a: string, b: string)
    requires LexLe(a, b) && LexLe(b, a)
    ensures a == b
    decreases |a|
  {
    if a != [] && b != [] {
      LexLeAntisym(a[1..], b[1..]);
      assert a == [a[0]] + a[1..] && b == [b[0]] + b[1..];
    }
  }

  /** A shared prefix does not change the order. */
  lemma {:induction false} LexLePrefix(p: string, x: string, y: string)
    ensures LexLe(p + x, p + y) <==> LexLe(x, y)
    decreases |p|
  {
    if p != [] {
      assert (p + x)[1..] == p[1..] + x && (p + y)[1..] == p[1..] + y;
      LexLePrefix(p[1..], x, y);
    } else {
      assert p + x == x && p + y == y;
    }
  }

  /** Two different texts of one length are ordered by themselves, whatever follows them. */
  lemma {:induction false} LexLeDecided(x: string, y: string, s: string, t: string)
    requires |x| == |y| && x != y
    ensures LexLe(x + s, y + t) <==> LexLe(x, y)
    decreases |x|
  {
    assert x != [];
    assert (x + s)[0] == x[0] && (y + t)[0] == y[0];
    if x[0] == y[0] {
      assert x[1..] != y[1..] by {
        assert x == [x[0]] + x[1..] && y == [y[0]] + y[1..];
      }
      assert (x + s)[1..] == x[1..] + s && (y + t)[1..] == y[1..] + t;
      LexLeDecided(x[1..], y[1..], s, t);
    }
  }

  lemma {:induction false} LexLeRefl(x: string)
    ensures LexLe(x, x)
  {
    LexLeTotal(x, x);
  }
}
