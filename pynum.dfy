/** Python's `int(text)` and `float(text)` and the decimal rendering of numbers, restricted to
    ASCII digits and plain decimal notation. Python floats are modelled as exact `real`s. */
module PyNum {
  import opened Wrappers
  import opened PyText

  predicate IsDigit(c: char) {
    '0' <= c <= '9'
  }

  predicate AllDigits(s: string) {
    forall k :: 0 <= k < |s| ==> IsDigit(s[k])
  }

  function DigitValue(c: char): (d: nat)
    requires IsDigit(c)
    ensures d < 10
  {
    (c - '0') as nat
  }

  function DigitChar(d: nat): (c: char)
    requires d < 10
    ensures IsDigit(c) && DigitValue(c) == d
  {
    ('0' as int + d) as char
  }

  /** The number a run of decimal digits denotes, most significant first. */
  function DigitsValue(s: string): (n: nat)
    requires AllDigits(s)
  {
    if s == [] then 0 else DigitsValue(s[..|s| - 1]) * 10 + DigitValue(s[|s| - 1])
  }

  function Pow10(k: nat): (p: nat)
    ensures p >= 1
  {
    if k == 0 then 1 else 10 * Pow10(k - 1)
  }

  /** A run of `k` digits denotes less than `10^k`. */
  lemma {:induction false} DigitsValueBound(s: string)
    requires AllDigits(s)
    ensures DigitsValue(s) < Pow10(|s|)
  {
    if s != [] {
      DigitsValueBound(s[..|s| - 1]);
    }
  }

  /** Reading digits `a + b` is reading `a`, shifting by the length of `b`, and adding `b`. */
  lemma {:induction false} DigitsValueAppend(a: string, b: string)
    requires AllDigits(a) && AllDigits(b)
    ensures AllDigits(a + b)
    ensures DigitsValue(a + b) == DigitsValue(a) * Pow10(|b|) + DigitsValue(b)
    decreases |b|
  {
    assert AllDigits(a + b) by {
      forall k | 0 <= k < |a + b| ensures IsDigit((a + b)[k]) {
        if k < |a| { assert (a + b)[k] == a[k]; } else { assert (a + b)[k] == b[k - |a|]; }
      }
    }
    if b == [] {
      assert a + b == a;
    } else {
      var b' := b[..|b| - 1];
      var last := DigitValue(b[|b| - 1]);
      assert (a + b)[..|a + b| - 1] == a + b';
      assert (a + b)[|a + b| - 1] == b[|b| - 1];
      DigitsValueAppend(a, b');
      assert DigitsValue(a + b) == DigitsValue(a + b') * 10 + last;
      assert DigitsValue(b) == DigitsValue(b') * 10 + last;
      assert Pow10(|b|) == 10 * Pow10(|b'|);
      ShiftDigit(DigitsValue(a), Pow10(|b'|), DigitsValue(b'), last);
    }
  }

  lemma ShiftDigit(x: int, p: int, y: int, d: int)
    ensures (x * p + y) * 10 + d == x * (10 * p) + (y * 10 + d)
  {
  }

  /** The decimal digits of a natural number, without leading zeros. */
  function NatToString(n: nat): (s: string)
    ensures s != [] && AllDigits(s)
    ensures DigitsValue(s) == n
    ensures |s| > 1 ==> s[0] != '0'
  {
    if n < 10 then [DigitChar(n)]
    else
      var s := NatToString(n / 10) + [DigitChar(n % 10)];
      assert s[..|s| - 1] == NatToString(n / 10);
      s
  }

  /** `str(i)` for a Python int. */
  function IntToString(i: int): (s: string)
    ensures s != []
    ensures i >= 0 ==> s == NatToString(i)
    ensures i < 0 ==> s == "-" + NatToString(-i)
  {
    if i < 0 then "-" + NatToString(-i) else NatToString(i)
  }

  /** The optional sign in front of a Python numeric literal: `-` negates, `+` is dropped. */
  function SignOf(t: string): (r: (bool, string))
    ensures t != [] && t[0] == '-' ==> r == (true, t[1..])
    ensures t != [] && t[0] == '+' ==> r == (false, t[1..])
    ensures t == [] || (t[0] != '-' && t[0] != '+') ==> r == (false, t)
  {
    if t != [] && t[0] == '-' then (true, t[1..])
    else if t != [] && t[0] == '+' then (false, t[1..])
    else (false, t)
  }

  /** `int(s)` on a string: surrounding whitespace, an optional sign and at least one digit.
      Anything else raises `ValueError`, modelled as `None`. */
  function ParseInt(s: string): (r: Option<int>)
    ensures r.Some? ==> Strip(s) != []
  {
    var sign := SignOf(Strip(s));
    var neg, body := sign.0, sign.1;
    if body == [] || !AllDigits(body) then None
    else Some(if neg then -(DigitsValue(body) as int) else DigitsValue(body))
  }

  /** `float(s)` on a string in plain decimal notation: surrounding whitespace, an optional sign,
      digits with at most one `.`, and at least one digit on one side of it. */
  function ParseFloat(s: string): (r: Option<real>)
    ensures r.Some? ==> Strip(s) != []
  {
    var sign := SignOf(Strip(s));
    var m := UnsignedDecimal(sign.1);
    if m.None? then None else Some(if sign.0 then -m.value else m.value)
  }

  /** The unsigned part of a decimal literal: one or two dot-separated digit runs. */
  function UnsignedDecimal(body: string): (r: Option<real>)
    ensures r.Some? ==> body != []
  {
    var parts := SplitOn(body, '.');
    if |parts| > 2 then None
    else
      var r := DecimalOf(parts[0], if |parts| == 2 then parts[1] else "");
      assert r.Some? ==> body != [] by {
        if body == [] { assert SplitOn(body, '.') == [[]]; }
      }
      r
  }

  function DecimalOf(whole: string, frac: string): (r: Option<real>)
    ensures r.Some? <==> whole + frac != [] && AllDigits(whole) && AllDigits(frac)
  {
    if whole + frac == [] || !AllDigits(whole) || !AllDigits(frac) then None
    else Some(DecimalValue(whole, frac))
  }

  /** The number `whole.frac` denotes. */
  function DecimalValue(whole: string, frac: string): real
    requires AllDigits(whole) && AllDigits(frac)
  {
    DigitsValue(whole) as real + DigitsValue(frac) as real / Pow10(|frac|) as real
  }

  /** Without fraction digits a decimal is its whole part. */
  lemma DecimalWithoutFraction(w: string)
    requires w != [] && AllDigits(w)
    ensures DecimalOf(w, "") == Some(DigitsValue(w) as real)
  {
    assert w + "" == w;
    assert DigitsValue("") == 0 && Pow10(0) == 1;
  }

  /** Every integer survives being written out and read back, by `int` and by `float`. */
  lemma IntRoundTrip(i: int)
    ensures ParseInt(IntToString(i)) == Some(i)
    ensures ParseFloat(IntToString(i)) == Some(i as real)
  {
    var s := IntToString(i);
    var digits := NatToString(if i < 0 then -i else i);
    IntToStringStrip(i);
    assert SignOf(s) == (i < 0, digits) by {
      assert IsDigit(digits[0]);
    }
    ParseIntOfNumeral(s, i < 0, digits);
    ParseFloatOfDigits(s, i < 0, digits);
  }

  lemma IntToStringStrip(i: int)
    ensures Strip(IntToString(i)) == IntToString(i)
  {
    var s := IntToString(i);
    var digits := NatToString(if i < 0 then -i else i);
    forall k | 0 <= k < |s| ensures IsDigit(s[k]) || s[k] in "+-." {
      if i < 0 && k > 0 { assert s[k] == digits[k - 1]; }
    }
    NumeralStrip(s);
  }

  /** `float(w)` for a non-empty run of digits is the number it denotes. */
  lemma ParseDigits(w: string)
    requires w != [] && AllDigits(w)
    ensures ParseFloat(w) == Some(DigitsValue(w) as real)
  {
    assert IsDigit(w[0]);
    NumeralStrip(w);
    ParseFloatOfDigits(w, false, w);
  }

  lemma ParseIntOfNumeral(s: string, neg: bool, body: string)
    requires Strip(s) == s && SignOf(s) == (neg, body) && body != [] && AllDigits(body)
    ensures neg ==> ParseInt(s) == Some(-(DigitsValue(body) as int))
    ensures !neg ==> ParseInt(s) == Some(DigitsValue(body))
  {
    assert ParseInt(s) == Some(if neg then -(DigitsValue(body) as int) else DigitsValue(body)) by {
      assert SignOf(Strip(s)) == (neg, body);
    }
  }

  lemma ParseFloatOfDigits(s: string, neg: bool, body: string)
    requires Strip(s) == s && SignOf(s) == (neg, body) && body != [] && AllDigits(body)
    ensures neg ==> ParseFloat(s) == Some(-(DigitsValue(body) as real))
    ensures !neg ==> ParseFloat(s) == Some(DigitsValue(body) as real)
  {
    NoDotInDigits(body);
    SplitWithoutSeparator(body, '.');
    var empty: string := [];
    assert body + empty == body;
    assert DecimalOf(body, empty) == Some(DecimalValue(body, empty));
    assert UnsignedDecimal(body) == Some(DecimalValue(body, empty));
    assert ParseFloat(s) == Some(if neg then -DecimalValue(body, empty) else DecimalValue(body, empty)) by {
      assert SignOf(Strip(s)) == (neg, body);
    }
  }

  /** Digits, signs and the decimal point are not whitespace, so a numeral is its own strip. */
  lemma NumeralStrip(s: string)
    requires forall k :: 0 <= k < |s| ==> IsDigit(s[k]) || s[k] in "+-."
    ensures Strip(s) == s
  {
    forall k | 0 <= k < |s| ensures !IsSpace(s[k]) {
      assert IsDigit(s[k]) || s[k] == '+' || s[k] == '-' || s[k] == '.';
    }
    StripNoSpace(s);
  }

  lemma NoDotInDigits(s: string)
    requires AllDigits(s)
    ensures '.' !in s
  {
  }

  /** `float(w + "." + f)` for digit runs `w` and `f`, not both empty, is `w` plus `f` scaled by
      its length: the reading the price rules rely on. */
  lemma ParseDecimal(w: string, f: string)
    requires AllDigits(w) && AllDigits(f) && w + f != []
    ensures ParseFloat(w + "." + f) == Some(DecimalValue(w, f))
  {
    var s := w + "." + f;
    assert SignOf(s) == (false, s) by {
      assert s[0] == if w == [] then '.' else w[0];
    }
    assert Strip(s) == s by {
      forall k | 0 <= k < |s| ensures IsDigit(s[k]) || s[k] in "+-." {
        if k < |w| { assert s[k] == w[k]; } else if k > |w| { assert s[k] == f[k - |w| - 1]; }
      }
      NumeralStrip(s);
    }
    SplitDecimal(w, f);
    ParseFloatOfParts(s, w, f);
  }

  lemma SplitDecimal(w: string, f: string)
    requires AllDigits(w) && AllDigits(f)
    ensures SplitOn(w + "." + f, '.') == [w, f]
  {
    var s := w + "." + f;
    NoDotInDigits(w);
    NoDotInDigits(f);
    assert s[..|w|] == w;
    assert s[|w|] == '.';
    assert IndexOf(s, '.') == |w|;
    assert s[|w| + 1..] == f;
    SplitWithoutSeparator(f, '.');
  }

  lemma ParseFloatOfParts(s: string, w: string, f: string)
    requires Strip(s) == s && SignOf(s) == (false, s) && SplitOn(s, '.') == [w, f]
    requires AllDigits(w) && AllDigits(f) && w + f != []
    ensures ParseFloat(s) == Some(DecimalValue(w, f))
  {
    var t := Strip(s);
    assert SignOf(t) == (false, s);
    assert DecimalOf(w, f) == Some(DecimalValue(w, f));
    assert UnsignedDecimal(s) == Some(DecimalValue(w, f));
  }

  /** The digits of a fraction `0 <= f < 1`, `n` of them, each the floor of ten times what is left. */
  function FractionDigits(f: real, n: nat): (s: string)
    requires 0.0 <= f < 1.0
    ensures |s| == n && AllDigits(s)
    decreases n
  {
    if n == 0 then ""
    else
      var d := (f * 10.0).Floor;
      [DigitChar(d)] + FractionDigits(f * 10.0 - d as real, n - 1)
  }

  function TrimTrailingZeros(s: string): (r: string)
    ensures |r| <= |s| && r == s[..|r|]
    ensures r != [] ==> r[|r| - 1] != '0'
  {
    if s != [] && s[|s| - 1] == '0' then TrimTrailingZeros(s[..|s| - 1]) else s
  }

  /** `str(x)` for a Python float, as fixed-point decimal with at least one fractional digit
      (`5.0`, `-2.5`) and at most seventeen. */
  function FloatText(x: real): (s: string)
    ensures s != []
  {
    var a := if x < 0.0 then -x else x;
    var n := a.Floor;
    var digits := TrimTrailingZeros(FractionDigits(a - n as real, 17));
    (if x < 0.0 then "-" else "") + NatToString(n) + "." + (if digits == "" then "0" else digits)
  }
}
