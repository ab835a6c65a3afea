/** The parts of the Kotlin/JVM string library that the validators and the
    database ordering rely on: `isBlank`, `toInt`, `Int.toString` and the
    byte-wise text order that SQLite applies to `ORDER BY` on a text column. */
module Strings {
  import opened Wrappers

  /** Kotlin's `Char.isWhitespace()` on the JVM: `Character.isWhitespace(c) ||
      Character.isSpaceChar(c)`, that is the ASCII controls 9..13 and 28..31 and
      the Unicode space, line and paragraph separators. */
  predicate IsWhitespace(c: char) {
    || ('\U{0009}' <= c <= '\U{000D}')
    || ('\U{001C}' <= c <= '\U{001F}')
    || c == ' ' || c == '\U{00A0}' || c == '\U{1680}'
    || ('\U{2000}' <= c <= '\U{200A}')
    || c == '\U{2028}' || c == '\U{2029}' || c == '\U{202F}' || c == '\U{205F}' || c == '\U{3000}'
  }

  /** Kotlin's `CharSequence.isBlank()`: empty or whitespace only. */
  predicate IsBlank(s: string) {
    forall i :: 0 <= i < |s| ==> IsWhitespace(s[i])
  }

  /** Kotlin's `String.length`: the number of UTF-16 code units, so a character
      outside the Basic Multilingual Plane (above U+FFFF) counts twice. */
  function Utf16Length(s: string): (n: nat)
    ensures |s| <= n <= 2 * |s|
    ensures (forall i :: 0 <= i < |s| ==> s[i] <= '\U{FFFF}') ==> n == |s|
  {
    if s == [] then 0
    else
      var init := s[..|s| - 1];
      assert forall i :: 0 <= i < |init| ==> init[i] == s[i];
      Utf16Length(init) + (if s[|s| - 1] > '\U{FFFF}' then 2 else 1)
  }

  /** A character above U+FFFF is a surrogate pair: two units of `length`. */
  lemma Utf16LengthExamples()
    ensures Utf16Length("abc") == 3
    ensures Utf16Length("\U{1F600}") == 2
    ensures Utf16Length("a\U{1D49C}") == 3
  {
    assert "a\U{1D49C}"[..1] == "a";
  }

  predicate IsDigit(c: char) {
    '0' <= c <= '9'
  }

  predicate AllDigits(s: string) {
    forall i :: 0 <= i < |s| ==> IsDigit(s[i])
  }

  function DigitValue(c: char): (d: nat)
    requires IsDigit(c)
    ensures d < 10
  {
    (c as int) - ('0' as int)
  }

  function DigitChar(d: nat): (c: char)
    requires d < 10
    ensures IsDigit(c) && DigitValue(c) == d
  {
    (('0' as int) + d) as char
  }

  /** The value of a string of decimal digits, read left to right. */
  function DigitsValue(s: string): nat
    requires AllDigits(s)
  {
    if s == [] then 0 else DigitsValue(s[..|s| - 1]) * 10 + DigitValue(s[|s| - 1])
  }

  const IntMin: int := -0x8000_0000
  const IntMax: int := 0x7FFF_FFFF

  /** A value of Kotlin's 32-bit `Int`. */
  predicate InInt32(n: int) {
    IntMin <= n <= IntMax
  }

  /** Kotlin's `String.toInt()` on `Int`: an optional `+` or `-`, then at least
      one decimal digit, and a value that fits in 32 bits; anything else raises
      `NumberFormatException`, modelled as `None`. */
  function ParseInt(s: string): (r: Option<int>)
    ensures r.Some? ==> InInt32(r.value)
    ensures r.Some? ==> !IsBlank(s)
  {
    if s == [] then None
    else if s[0] == '-' || s[0] == '+' then
      if |s| == 1 || !AllDigits(s[1..]) then None
      else
        var d: int := DigitsValue(s[1..]);
        var v := if s[0] == '-' then -d else d;
        assert !IsWhitespace(s[1]) by { assert IsDigit(s[1..][0]); }
        if InInt32(v) then Some(v) else None
    else if AllDigits(s) then
      var v := DigitsValue(s);
      assert !IsWhitespace(s[0]);
      if InInt32(v) then Some(v) else None
    else None
  }

  /** The decimal digits of a natural number, most significant first. */
  function NatToString(n: nat): (s: string)
    ensures s != [] && AllDigits(s)
  {
    if n < 10 then [DigitChar(n)] else NatToString(n / 10) + [DigitChar(n % 10)]
  }

  /** Kotlin's `Int.toString()`: a `-` for negative values, no leading zeros. */
  function IntToString(n: int): (s: string)
    ensures s != [] && (s[0] == '-' <==> n < 0)
  {
    if n < 0 then "-" + NatToString(-n) else NatToString(n)
  }

  lemma {:induction false} NatToStringValue(n: nat)
    ensures DigitsValue(NatToString(n)) == n
  {
    var s := NatToString(n);
    if n >= 10 {
      NatToStringValue(n / 10);
      assert s[..|s| - 1] == NatToString(n / 10);
    }
  }

  /** `toString` followed by `toInt` gives back every 32-bit integer. */
  lemma ParseIntToString(n: int)
    requires InInt32(n)
    ensures ParseInt(IntToString(n)) == Some(n)
  {
    var s := IntToString(n);
    if n < 0 {
      NatToStringValue(-n);
      assert s[1..] == NatToString(-n);
    } else {
      NatToStringValue(n);
      assert IsDigit(s[0]);
    }
  }

  /** `k` leading zeros. */
  function Zeros(k: nat): (z: string)
    ensures |z| == k && AllDigits(z)
  {
    if k == 0 then [] else Zeros(k - 1) + ['0']
  }

  function Magnitude(n: int): nat {
    if n < 0 then -n else n
  }

  /** Leading zeros do not change the value of a digit string. */
  lemma {:induction false} PaddedValue(k: nat, t: string)
    requires AllDigits(t)
    ensures AllDigits(Zeros(k) + t)
    ensures DigitsValue(Zeros(k) + t) == DigitsValue(t)
  {
    var u := Zeros(k) + t;
    assert forall i :: 0 <= i < |u| ==> IsDigit(u[i]);
    if t == [] {
      assert u == Zeros(k);
      if k > 0 {
        PaddedValue(k - 1, []);
        assert Zeros(k)[..k - 1] == Zeros(k - 1) + [];
      }
    } else {
      var init := t[..|t| - 1];
      PaddedValue(k, init);
      assert u[..|u| - 1] == Zeros(k) + init;
      assert u[|u| - 1] == t[|t| - 1];
    }
  }

  /** Every non-empty digit string is some leading zeros followed by the
      canonical digits of its value. */
  lemma {:induction false} DigitsShape(d: string) returns (k: nat)
    requires d != [] && AllDigits(d)
    ensures d == Zeros(k) + NatToString(DigitsValue(d))
  {
    var init, c := d[..|d| - 1], d[|d| - 1];
    assert DigitChar(DigitValue(c)) == c;
    if init == [] {
      assert d == [c];
      k := 0;
    } else {
      var k' := DigitsShape(init);
      var v := DigitsValue(init);
      assert d == init + [c];
      if v == 0 {
        k := k' + 1;
        assert init == Zeros(k);
      } else {
        k := k';
        var w := DigitsValue(d);
        assert w == v * 10 + DigitValue(c) && w >= 10;
        assert w / 10 == v && w % 10 == DigitValue(c);
        assert NatToString(w) == NatToString(v) + [c];
      }
    }
  }

  /** `toInt` on a sign followed by digits. */
  lemma ParseIntOfDigits(sign: string, d: string)
    requires sign == "" || sign == "+" || sign == "-"
    requires d != [] && AllDigits(d)
    ensures var v := if sign == "-" then -(DigitsValue(d) as int) else DigitsValue(d) as int;
            ParseInt(sign + d) == if InInt32(v) then Some(v) else None
  {
    var s := sign + d;
    if sign != "" {
      assert s[0] == sign[0] && s[1..] == d;
      assert s[0] == '-' <==> sign == "-";
    } else {
      assert s == d && IsDigit(s[0]);
    }
  }

  /** The same, with the digits given as two parts. */
  lemma ParseIntOfPadded(sign: string, z: string, t: string)
    requires sign == "" || sign == "+" || sign == "-"
    requires AllDigits(z) && t != [] && AllDigits(t)
    ensures AllDigits(z + t)
    ensures var v := if sign == "-" then -(DigitsValue(z + t) as int) else DigitsValue(z + t) as int;
            ParseInt(sign + z + t) == if InInt32(v) then Some(v) else None
  {
    var d := z + t;
    assert forall i :: 0 <= i < |d| ==> IsDigit(d[i]);
    ParseIntOfDigits(sign, d);
    assert sign + z + t == sign + d;
  }

  /** Every accepted text is a sign followed by digits. */
  lemma ParseIntAccepts(s: string) returns (sign: string, d: string)
    requires ParseInt(s).Some?
    ensures sign == "" || sign == "+" || sign == "-"
    ensures s == sign + d && d != [] && AllDigits(d)
    ensures ParseInt(s).value == if sign == "-" then -(DigitsValue(d) as int) else DigitsValue(d) as int
  {
    d := if s[0] == '-' || s[0] == '+' then s[1..] else s;
    sign := if s[0] == '-' || s[0] == '+' then [s[0]] else "";
    assert s == sign + d;
  }

  /** What an accepted text stands for: `toInt` reads `n` only from an optional
      sign, leading zeros and the digits of the magnitude of `n`, where a `-`
      comes only with an `n` of at most 0 and a `+` or no sign only with an
      `n` of at least 0. */
  lemma ParseIntShape(s: string) returns (sign: string, zeros: nat)
    requires ParseInt(s).Some?
    ensures sign == "" || sign == "+" || sign == "-"
    ensures s == sign + Zeros(zeros) + NatToString(Magnitude(ParseInt(s).value))
    ensures sign == "-" ==> ParseInt(s).value <= 0
    ensures sign != "-" ==> ParseInt(s).value >= 0
  {
    var d;
    sign, d := ParseIntAccepts(s);
    zeros := DigitsShape(d);
    assert Magnitude(ParseInt(s).value) == DigitsValue(d);
  }

  /** The converse: every such text is accepted exactly when its value fits
      in 32 bits, and then reads as that value. */
  lemma ParseIntOfShape(sign: string, zeros: nat, m: nat)
    requires sign == "" || sign == "+" || sign == "-"
    ensures var v := if sign == "-" then -(m as int) else m as int;
            ParseInt(sign + Zeros(zeros) + NatToString(m)) == if InInt32(v) then Some(v) else None
  {
    PaddedValue(zeros, NatToString(m));
    NatToStringValue(m);
    ParseIntOfPadded(sign, Zeros(zeros), NatToString(m));
  }

  /** Texts that are not `toString` of their value but that `toInt` accepts. */
  lemma ParseIntExamples()
    ensures ParseInt("+5") == Some(5)
    ensures ParseInt("007") == Some(7)
    ensures ParseInt("-0") == Some(0)
    ensures ParseInt("") == None && ParseInt("-") == None && ParseInt(" 5") == None
  {
    ParseIntOfShape("+", 0, 5);
    assert "+" + Zeros(0) + NatToString(5) == "+5";
    ParseIntOfShape("", 2, 7);
    assert "" + Zeros(2) + NatToString(7) == "007";
    ParseIntOfShape("-", 0, 0);
    assert "-" + Zeros(0) + NatToString(0) == "-0";
    assert !IsDigit(" 5"[0]);
  }

  /** SQLite's BINARY collation on text: byte-wise comparison of the UTF-8
      encodings, which orders strings lexicographically by code point. */
  predicate TextLe(a: string, b: string) {
    a == [] || (b != [] && (a[0] < b[0] || (a[0] == b[0] && TextLe(a[1..], b[1..]))))
  }

  lemma {:induction false} TextLeTotal(a: string, b: string)
    ensures TextLe(a, b) || TextLe(b, a)
  {
    if a != [] && b != [] && a[0] == b[0] {
      TextLeTotal(a[1..], b[1..]);
    }
  }

  lemma {:induction false} TextLeTransitive(a: string, b: string, c: string)
    requires TextLe(a, b) && TextLe(b, c)
    ensures TextLe(a, c)
  {
    if a != [] && a[0] == b[0] && b[0] == c[0] {
      TextLeTransitive(a[1..], b[1..], c[1..]);
    }
  }
}
