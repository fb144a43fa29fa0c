/**
 * Decimal numerals as Python writes and reads them: `str(n)`, the zero-padded
 * `f"{n:02d}"`, and `int(s)` on a string.
 */
module Numerals {
  import opened Wrappers
  import opened Text

  predicate IsDigit(c: char) {
    '0' <= c <= '9'
  }

  function DigitChar(d: nat): (c: char)
    requires d < 10
    ensures IsDigit(c)
  {
    ('0' as int + d) as char
  }

  function DigitValue(c: char): (d: nat)
    requires IsDigit(c)
    ensures d < 10
  {
    c as int - '0' as int
  }

  /** `str(n)` for a non-negative integer: decimal digits, no leading zero. */
  function NatToString(n: nat): (s: string)
    ensures |s| >= 1
    ensures forall i :: 0 <= i < |s| ==> IsDigit(s[i])
    ensures |s| > 1 ==> s[0] != '0'
  {
    if n < 10 then [DigitChar(n)] else NatToString(n / 10) + [DigitChar(n % 10)]
  }

  /** `str(n)` for any integer. */
  function IntToString(n: int): string {
    if n < 0 then "-" + NatToString(-n) else NatToString(n)
  }

  /** `f"{n:02d}"` for a non-negative integer: at least two digits. */
  function Pad2(n: nat): (s: string)
    ensures |s| >= 2
    ensures forall i :: 0 <= i < |s| ==> IsDigit(s[i])
  {
    if n < 10 then "0" + NatToString(n) else NatToString(n)
  }

  /** The value of a string of decimal digits, most significant first. */
  function DigitsValue(s: string): nat
    requires forall i :: 0 <= i < |s| ==> IsDigit(s[i])
  {
    if s == [] then 0 else DigitsValue(s[..|s| - 1]) * 10 + DigitValue(s[|s| - 1])
  }

  /** Reading back the digits `str` writes gives the number. */
  lemma {:induction false} DigitsOfNat(n: nat)
    ensures DigitsValue(NatToString(n)) == n
  {
    if n >= 10 {
      var s := NatToString(n);
      assert s[..|s| - 1] == NatToString(n / 10);
      DigitsOfNat(n / 10);
    }
  }

  /** Leading zeros do not change the value of a digit string. */
  lemma {:induction false} LeadingZero(s: string)
    requires forall i :: 0 <= i < |s| ==> IsDigit(s[i])
    ensures DigitsValue("0" + s) == DigitsValue(s)
    decreases |s|
  {
    if s != [] {
      var t := "0" + s;
      assert t[..|t| - 1] == "0" + s[..|s| - 1];
      LeadingZero(s[..|s| - 1]);
    }
  }

  /** `f"{n:02d}"` reads back as `n`. */
  lemma Pad2Value(n: nat)
    ensures DigitsValue(Pad2(n)) == n
  {
    DigitsOfNat(n);
    if n < 10 {
      LeadingZero(NatToString(n));
    }
  }

  /** The digit syntax `int()` accepts: decimal digits, where single
      underscores may separate two digits. */
  predicate IsDigitGroups(s: string) {
    && |s| > 0
    && IsDigit(s[0]) && IsDigit(s[|s| - 1])
    && (forall i :: 0 <= i < |s| ==> IsDigit(s[i]) || s[i] == '_')
    && (forall i :: 0 <= i < |s| - 1 ==> !(s[i] == '_' && s[i + 1] == '_'))
  }

  /** The digits of a digit-group string, underscores dropped. */
  function WithoutUnderscores(s: string): (r: string)
    requires forall i :: 0 <= i < |s| ==> IsDigit(s[i]) || s[i] == '_'
    ensures forall i :: 0 <= i < |r| ==> IsDigit(r[i])
    ensures (forall i :: 0 <= i < |s| ==> IsDigit(s[i])) ==> r == s
  {
    if s == [] then []
    else if s[0] == '_' then WithoutUnderscores(s[1..])
    else [s[0]] + WithoutUnderscores(s[1..])
  }

  /** The value of an unsigned digit-group string, or `None`. */
  function ParseUnsigned(t: string): (r: Option<nat>)
    ensures r.Some? <==> IsDigitGroups(t)
  {
    if IsDigitGroups(t) then Some(DigitsValue(WithoutUnderscores(t))) else None
  }

  /** `int(s)`: surrounding whitespace is ignored, then an optional sign and a
      digit-group body; anything else is a `ValueError`, modelled as `None`. */
  function ParseInt(s: string): Option<int> {
    var t := Strip(s);
    var signed := |t| > 0 && (t[0] == '-' || t[0] == '+');
    var body := if signed then t[1..] else t;
    match ParseUnsigned(body)
    case None => None
    case Some(v) => Some(if signed && t[0] == '-' then 0 - v else v)
  }

  /** Dropping the underscores of a concatenation drops those of each part. */
  lemma {:induction false} WithoutUnderscoresConcat(a: string, b: string)
    requires forall i :: 0 <= i < |a| ==> IsDigit(a[i]) || a[i] == '_'
    requires forall i :: 0 <= i < |b| ==> IsDigit(b[i]) || b[i] == '_'
    ensures WithoutUnderscores(a + b) == WithoutUnderscores(a) + WithoutUnderscores(b)
    decreases |a|
  {
    if a == [] {
      assert a + b == b;
    } else {
      var ab := a + b;
      var rest := a[1..];
      assert ab[0] == a[0] && ab[1..] == rest + b;
      assert forall i :: 0 <= i < |rest| ==> IsDigit(rest[i]) || rest[i] == '_' by {
        forall i | 0 <= i < |rest| ensures IsDigit(rest[i]) || rest[i] == '_' {
          assert rest[i] == a[i + 1];
        }
      }
      WithoutUnderscoresConcat(rest, b);
    }
  }

  /** Two digit-group strings joined directly, or by one underscore, form a
      digit-group string. */
  lemma JoinedGroups(a: string, sep: string, b: string)
    requires IsDigitGroups(a) && IsDigitGroups(b)
    requires sep == "" || sep == "_"
    ensures IsDigitGroups(a + sep + b)
  {
    var x := a + sep + b;
    var k := |a| + |sep|;
    forall i | 0 <= i < |x| ensures IsDigit(x[i]) || x[i] == '_' {
      if i < |a| { assert x[i] == a[i]; } else if i >= k { assert x[i] == b[i - k]; }
    }
    forall i | 0 <= i < |x| - 1 ensures !(x[i] == '_' && x[i + 1] == '_') {
      if i < |a| - 1 {
        assert x[i] == a[i] && x[i + 1] == a[i + 1];
      } else if i == |a| - 1 {
        assert x[i] == a[|a| - 1];
      } else if i < k {
        assert x[i + 1] == b[0];
      } else {
        assert x[i] == b[i - k] && x[i + 1] == b[i - k + 1];
      }
    }
    assert x[0] == a[0] && x[|x| - 1] == b[|b| - 1];
  }

  /** An underscore between two parts adds no digit. */
  lemma WithoutUnderscoresJoin(a: string, b: string)
    requires forall i :: 0 <= i < |a| ==> IsDigit(a[i]) || a[i] == '_'
    requires forall i :: 0 <= i < |b| ==> IsDigit(b[i]) || b[i] == '_'
    ensures WithoutUnderscores(a + "_" + b) == WithoutUnderscores(a) + WithoutUnderscores(b)
  {
    var u := "_" + b;
    assert u[0] == '_' && u[1..] == b;
    assert WithoutUnderscores(u) == WithoutUnderscores(b);
    assert forall i :: 0 <= i < |u| ==> IsDigit(u[i]) || u[i] == '_' by {
      forall i | 0 <= i < |u| ensures IsDigit(u[i]) || u[i] == '_' {
        if i > 0 { assert u[i] == b[i - 1]; }
      }
    }
    assert a + "_" + b == a + u;
    WithoutUnderscoresConcat(a, u);
  }

  /** An underscore between two digit groups is allowed and does not change
      the value: `int("1_000") == int("1000")`. */
  lemma ParseUnsignedUnderscore(a: string, b: string)
    requires IsDigitGroups(a) && IsDigitGroups(b)
    ensures ParseUnsigned(a + "_" + b).Some?
    ensures ParseUnsigned(a + "_" + b) == ParseUnsigned(a + b)
  {
    JoinedGroups(a, "_", b);
    JoinedGroups(a, "", b);
    assert a + "" + b == a + b;
    WithoutUnderscoresJoin(a, b);
    WithoutUnderscoresConcat(a, b);
  }

  /** A plain run of digits is a digit-group string with no underscore to
      drop. */
  lemma DigitsAreGroups(d: string)
    requires |d| > 0 && forall i :: 0 <= i < |d| ==> IsDigit(d[i])
    ensures IsDigitGroups(d) && WithoutUnderscores(d) == d
  {
    forall i | 0 <= i < |d| - 1 ensures !(d[i] == '_' && d[i + 1] == '_') {
      assert IsDigit(d[i]);
    }
  }

  /** A plain run of digits reads as its value. */
  lemma ParseUnsignedDigits(d: string)
    requires |d| > 0 && forall i :: 0 <= i < |d| ==> IsDigit(d[i])
    ensures ParseUnsigned(d) == Some(DigitsValue(d))
  {
    DigitsAreGroups(d);
  }

  /** An unsigned numeral that begins and ends with a digit is read by
      `int()` as it stands. */
  lemma ParseUnsignedNumeral(d: string, v: nat)
    requires |d| > 0 && IsDigit(d[0]) && IsDigit(d[|d| - 1]) && ParseUnsigned(d) == Some(v)
    ensures ParseInt(d) == Some(v)
  {
    StripNoop(d);
  }

  /** A minus sign before such a numeral negates it. */
  lemma ParseNegatedNumeral(d: string, v: nat)
    requires |d| > 0 && IsDigit(d[|d| - 1]) && ParseUnsigned(d) == Some(v)
    ensures ParseInt("-" + d) == Some(0 - v)
  {
    var t := "-" + d;
    assert t[|t| - 1] == d[|d| - 1];
    StripNoop(t);
    assert t[1..] == d;
  }

  /** `int(str(n)) == n` for every integer. */
  lemma ParseIntToString(n: int)
    ensures ParseInt(IntToString(n)) == Some(n)
  {
    var m: nat := if n < 0 then -n else n;
    var digits := NatToString(m);
    DigitsOfNat(m);
    ParseUnsignedDigits(digits);
    if n < 0 {
      ParseNegatedNumeral(digits, m);
    } else {
      ParseUnsignedNumeral(digits, m);
    }
  }

  /** `int()` of a string that is empty after stripping fails. */
  lemma ParseIntBlank(s: string)
    requires Strip(s) == ""
    ensures ParseInt(s) == None
  {
  }
}
