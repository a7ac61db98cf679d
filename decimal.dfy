/**
 * Decimal integers as Python 2 reads and writes them: `int(text)` in base 10
 * (used on the id part of a linker) and `str(n)` (used in relation tags).
 */
module Decimal {
  import opened Wrappers

  /** The ASCII whitespace that int() skips around the number and after its sign. */
  predicate IsSpace(c: char) {
    c == ' ' || c == '\t' || c == '\n' || c == '\r' || c == 11 as char || c == 12 as char
  }

  predicate IsDigit(c: char) {
    '0' <= c <= '9'
  }

  /** Every character of `s` is a decimal digit, checked from the end as DigitsValue reads it. */
  predicate AllDigits(s: string) {
    s == [] || (AllDigits(s[..|s| - 1]) && IsDigit(s[|s| - 1]))
  }

  lemma {:induction false} AllDigitsMeaning(s: string)
    ensures AllDigits(s) <==> forall k | 0 <= k < |s| :: IsDigit(s[k])
  {
    if s != [] {
      var init := s[..|s| - 1];
      AllDigitsMeaning(init);
      assert forall k | 0 <= k < |init| :: init[k] == s[k];
    }
  }

  function DigitValue(c: char): (d: nat)
    requires IsDigit(c)
    ensures d < 10
  {
    c as int - '0' as int
  }

  function DigitChar(d: nat): (c: char)
    requires d < 10
    ensures IsDigit(c) && DigitValue(c) == d
  {
    ('0' as int + d) as char
  }

  /** `s` without its leading whitespace. */
  function TrimLeft(s: string): string {
    if s != [] && IsSpace(s[0]) then TrimLeft(s[1..]) else s
  }

  /** `s` without its trailing whitespace. */
  function TrimRight(s: string): string {
    if s != [] && IsSpace(s[|s| - 1]) then TrimRight(s[..|s| - 1]) else s
  }

  function Strip(s: string): string {
    TrimRight(TrimLeft(s))
  }

  /** Every character of `s` is whitespace. */
  predicate AllSpace(s: string) {
    forall k | 0 <= k < |s| :: IsSpace(s[k])
  }

  /** TrimLeft drops a run of leading whitespace and stops at the first other character. */
  lemma {:induction false} TrimLeftIsSuffix(s: string)
    ensures |TrimLeft(s)| <= |s| && TrimLeft(s) == s[|s| - |TrimLeft(s)|..]
    ensures AllSpace(s[..|s| - |TrimLeft(s)|])
    ensures TrimLeft(s) != [] ==> !IsSpace(TrimLeft(s)[0])
  {
    if s != [] && IsSpace(s[0]) {
      TrimLeftIsSuffix(s[1..]);
      var m := |s| - |TrimLeft(s)|;
      assert forall k | 1 <= k < m :: s[..m][k] == s[1..][..m - 1][k - 1];
    }
  }

  /** TrimRight drops a run of trailing whitespace and stops at the last other character. */
  lemma {:induction false} TrimRightIsPrefix(s: string)
    ensures |TrimRight(s)| <= |s| && TrimRight(s) == s[..|TrimRight(s)|]
    ensures AllSpace(s[|TrimRight(s)|..])
    ensures TrimRight(s) != [] ==> !IsSpace(TrimRight(s)[|TrimRight(s)| - 1])
  {
    if s != [] && IsSpace(s[|s| - 1]) {
      var init := s[..|s| - 1];
      TrimRightIsPrefix(init);
      var m := |TrimRight(s)|;
      forall k | 0 <= k < |s| - m
        ensures IsSpace(s[m..][k])
      {
        if m + k < |s| - 1 {
          assert s[m..][k] == init[m..][k];
        }
      }
    }
  }

  /** Whitespace followed by text that does not start with whitespace trims to that text. */
  lemma {:induction false} TrimLeftOf(w: string, r: string)
    requires AllSpace(w) && (r == [] || !IsSpace(r[0]))
    ensures TrimLeft(w + r) == r
  {
    if w == [] {
      assert w + r == r;
    } else {
      assert (w + r)[0] == w[0] && (w + r)[1..] == w[1..] + r;
      TrimLeftOf(w[1..], r);
    }
  }

  /** Text that does not end with whitespace, followed by whitespace, trims to that text. */
  lemma {:induction false} TrimRightOf(r: string, w: string)
    requires AllSpace(w) && (r == [] || !IsSpace(r[|r| - 1]))
    ensures TrimRight(r + w) == r
  {
    if w == [] {
      assert r + w == r;
    } else {
      var init := w[..|w| - 1];
      assert (r + w)[|r + w| - 1] == w[|w| - 1] && (r + w)[..|r + w| - 1] == r + init;
      TrimRightOf(r, init);
    }
  }

  /** The value of a string of decimal digits, most significant first. */
  function DigitsValue(s: string): nat
    requires AllDigits(s)
  {
    if s == [] then 0 else DigitsValue(s[..|s| - 1]) * 10 + DigitValue(s[|s| - 1])
  }

  /**
   * Python 2 `int(s)`: surrounding whitespace is ignored, an optional sign may be
   * followed by more whitespace, and at least one digit must remain; anything else
   * raises ValueError, modelled as None.
   */
  function ParseInt(s: string): Option<int> {
    var t := Strip(s);
    if t == [] then None
    else
      var body := if t[0] == '-' || t[0] == '+' then TrimLeft(t[1..]) else t;
      if body != [] && AllDigits(body) then
        var v: int := DigitsValue(body);
        Some(if t[0] == '-' then -v else v)
      else
        None
  }

  /** A plain run of digits reads as its value. */
  lemma ParseIntDigits(s: string)
    requires s != [] && AllDigits(s)
    ensures ParseInt(s) == Some(DigitsValue(s))
  {
    AllDigitsMeaning(s);
    StripUnpadded(s);
  }

  /** int() raises on text without any digit. */
  lemma ParseIntNeedsDigit(s: string)
    requires forall k | 0 <= k < |s| :: !IsDigit(s[k])
    ensures ParseInt(s).None?
  {
    var l := TrimLeft(s);
    var t := Strip(s);
    TrimLeftIsSuffix(s);
    TrimRightIsPrefix(l);
    if t != [] {
      var body := if t[0] == '-' || t[0] == '+' then TrimLeft(t[1..]) else t;
      TrimLeftIsSuffix(t[1..]);
      if body != [] {
        assert t == l[..|t|];
        var i := |s| - |l| + (|t| - |body|);
        assert body[0] == s[i];
        AllDigitsMeaning(body);
      }
    }
  }

  /**
   * The shape of a text that `int()` accepts: whitespace `s[..a]`, an optional
   * sign `s[a..b]`, whitespace `s[b..c]` (only after a sign), at least one digit
   * `s[c..e]`, and whitespace `s[e..]`.
   */
  predicate IntShape(s: string, a: nat, b: nat, c: nat, e: nat) {
    && a <= b <= c < e <= |s|
    && AllSpace(s[..a])
    && (b == a || (b == a + 1 && (s[a] == '+' || s[a] == '-')))
    && (b == a ==> c == a)
    && AllSpace(s[b..c])
    && AllDigits(s[c..e])
    && AllSpace(s[e..])
  }

  /** The value a text of that shape denotes: its digits, negated after a minus sign. */
  function ShapeValue(s: string, a: nat, b: nat, c: nat, e: nat): int
    requires IntShape(s, a, b, c, e)
  {
    var v: int := DigitsValue(s[c..e]);
    if s[a] == '-' then -v else v
  }

  /** Text padded with whitespace on both sides strips to the part between. */
  lemma StripOf(s: string, a: nat, e: nat)
    requires a < e <= |s| && AllSpace(s[..a]) && AllSpace(s[e..])
    requires !IsSpace(s[a]) && !IsSpace(s[e - 1])
    ensures Strip(s) == s[a..e]
  {
    assert s == s[..a] + s[a..];
    TrimLeftOf(s[..a], s[a..]);
    assert s[a..] == s[a..e] + s[e..];
    TrimRightOf(s[a..e], s[e..]);
  }

  /** Every text of that shape is read as the value it denotes. */
  lemma ParseIntComplete(s: string, a: nat, b: nat, c: nat, e: nat)
    requires IntShape(s, a, b, c, e)
    ensures ParseInt(s) == Some(ShapeValue(s, a, b, c, e))
  {
    var d := s[c..e];
    AllDigitsMeaning(d);
    assert d[0] == s[c] && d[|d| - 1] == s[e - 1];
    StripOf(s, a, e);
    var t := s[a..e];
    assert t[0] == s[a];
    if b == a + 1 {
      assert t[1..] == s[b..e];
      assert s[b..e] == s[b..c] + d;
      TrimLeftOf(s[b..c], d);
      assert TrimLeft(t[1..]) == d;
    } else {
      assert t == d;
    }
  }

  /** Strip removes a whitespace prefix and a whitespace suffix. */
  lemma StripBounds(s: string) returns (a: nat, e: nat)
    ensures a <= e <= |s| && Strip(s) == s[a..e]
    ensures AllSpace(s[..a]) && AllSpace(s[e..])
  {
    var l := TrimLeft(s);
    TrimLeftIsSuffix(s);
    TrimRightIsPrefix(l);
    a := |s| - |l|;
    e := a + |Strip(s)|;
    assert s[e..] == l[|Strip(s)|..];
  }

  /** The positions at which a text that `int()` accepts splits into that shape. */
  lemma ShapeOf(s: string) returns (a: nat, b: nat, c: nat, e: nat)
    requires ParseInt(s).Some?
    ensures IntShape(s, a, b, c, e) && ShapeValue(s, a, b, c, e) == ParseInt(s).value
  {
    a, e := StripBounds(s);
    var t := s[a..e];
    if t[0] == '-' || t[0] == '+' {
      var rest := t[1..];
      TrimLeftIsSuffix(rest);
      b := a + 1;
      c := b + (|rest| - |TrimLeft(rest)|);
      assert rest == s[b..e];
      assert TrimLeft(rest) == s[c..e];
      assert s[b..c] == rest[..c - b];
    } else {
      b, c := a, a;
    }
  }

  /** Every text that `int()` accepts has that shape, and is read as the value it denotes. */
  lemma ParseIntSound(s: string)
    requires ParseInt(s).Some?
    ensures exists a, b, c, e | IntShape(s, a, b, c, e) :: ShapeValue(s, a, b, c, e) == ParseInt(s).value
  {
    var a, b, c, e := ShapeOf(s);
  }

  /** `int()` accepts exactly the texts of that shape, with the value they denote. */
  lemma ParseIntMeaning(s: string, v: int)
    ensures ParseInt(s) == Some(v) <==> exists a, b, c, e | IntShape(s, a, b, c, e) :: ShapeValue(s, a, b, c, e) == v
  {
    if ParseInt(s) == Some(v) {
      ParseIntSound(s);
    }
    if exists a, b, c, e | IntShape(s, a, b, c, e) :: ShapeValue(s, a, b, c, e) == v {
      var a: nat, b: nat, c: nat, e: nat :| IntShape(s, a, b, c, e) && ShapeValue(s, a, b, c, e) == v;
      ParseIntComplete(s, a, b, c, e);
    }
  }

  /** A text that `int()` accepts holds only whitespace, signs and digits. */
  lemma ParseIntCharacters(s: string)
    requires ParseInt(s).Some?
    ensures forall k | 0 <= k < |s| :: IsSpace(s[k]) || IsDigit(s[k]) || s[k] == '+' || s[k] == '-'
  {
    var a, b, c, e := ShapeOf(s);
    AllDigitsMeaning(s[c..e]);
    forall k | 0 <= k < |s|
      ensures IsSpace(s[k]) || IsDigit(s[k]) || s[k] == '+' || s[k] == '-'
    {
      if k < a {
        assert s[..a][k] == s[k];
      } else if k < b {
      } else if k < c {
        assert s[b..c][k - b] == s[k];
      } else if k < e {
        assert s[c..e][k - c] == s[k];
      } else {
        assert s[e..][k - e] == s[k];
      }
    }
  }

  /** Any other character, such as a letter, a dot or an `x`, makes `int()` raise. */
  lemma ParseIntRejectsStray(s: string, k: nat)
    requires k < |s| && !IsSpace(s[k]) && !IsDigit(s[k]) && s[k] != '+' && s[k] != '-'
    ensures ParseInt(s).None?
  {
    if ParseInt(s).Some? {
      ParseIntCharacters(s);
    }
  }

  /** Padding and a sign followed by padding are accepted: `int(" + 12 ")` is 12. */
  lemma PaddedSignExample()
    ensures ParseInt(" + 12 ") == Some(12)
  {
    var s := " + 12 ";
    assert s[..1] == " " && s[2..3] == " " && s[3..5] == "12" && s[5..] == " ";
    assert AllDigits("12") && DigitsValue("12") == 12 by {
      assert "12"[..1] == "1" && "1"[..0] == [];
    }
    assert IntShape(s, 1, 2, 3, 5);
    ParseIntComplete(s, 1, 2, 3, 5);
  }

  /** Decimal digits of a natural number, without leading zeros. */
  function NatToString(n: nat): (r: string)
    ensures r != [] && AllDigits(r)
    ensures r[0] == '0' <==> n == 0
    ensures |r| > 1 ==> r[0] != '0'
  {
    if n < 10 then [DigitChar(n)]
    else
      var init := NatToString(n / 10);
      var r := init + [DigitChar(n % 10)];
      assert r[..|r| - 1] == init;
      r
  }

  /** Python's `str(n)` for an integer. */
  function IntToString(n: int): (r: string)
    ensures r != []
    ensures forall k | 0 <= k < |r| :: IsDigit(r[k]) || (k == 0 && r[k] == '-' && n < 0)
    ensures r[0] == '-' <==> n < 0
    ensures r[0] == '0' ==> n == 0 && r == "0"
    ensures n < 0 ==> |r| >= 2 && r[1] != '0'
  {
    var digits := NatToString(if n < 0 then -n else n);
    AllDigitsMeaning(digits);
    if n < 0 then "-" + digits else digits
  }

  lemma {:induction false} NatToStringValue(n: nat)
    ensures DigitsValue(NatToString(n)) == n
  {
    if n >= 10 {
      NatToStringValue(n / 10);
      var p := NatToString(n / 10);
      var s := p + [DigitChar(n % 10)];
      assert s[..|s| - 1] == p;
    }
  }

  /** A string with no whitespace at either end is its own strip. */
  lemma StripUnpadded(s: string)
    requires s != [] && !IsSpace(s[0]) && !IsSpace(s[|s| - 1])
    ensures Strip(s) == s
  {
    assert TrimLeft(s) == s;
  }

  /** A minus sign followed by digits reads as the negated value. */
  lemma ParseIntNegative(d: string)
    requires d != [] && AllDigits(d)
    ensures ParseInt("-" + d) == Some(-(DigitsValue(d) as int))
  {
    var s := "-" + d;
    AllDigitsMeaning(d);
    assert s[|s| - 1] == d[|d| - 1];
    StripUnpadded(s);
    assert s[1..] == d;
    assert TrimLeft(d) == d;
  }

  /** Reading back what `str` wrote gives the same integer. */
  lemma IntToStringRoundTrip(n: int)
    ensures ParseInt(IntToString(n)) == Some(n)
  {
    NatToStringValue(if n < 0 then -n else n);
    if n < 0 {
      ParseIntNegative(NatToString(-n));
    } else {
      ParseIntDigits(NatToString(n));
    }
  }
}
