/** How the dashboard turns numbers into text. A displayed quantity (a water level, a
    quality indicator, a count) is modelled as a fixed-point decimal: an `int` number of
    thousandths. JavaScript's `String(x)` and `x.toFixed(d)` are exact on such values. */
module Numbers {
  import opened Text
  import opened Wrappers

  /** A decimal with at most three fractional digits, as a count of thousandths. */
  type Milli = int

  function Abs(x: int): nat { if x < 0 then -x else x }

  /** 10^k for the precisions the model covers. */
  function Scale(k: nat): (p: nat)
    requires k <= 3
    ensures p >= 1
  {
    if k == 0 then 1 else if k == 1 then 10 else if k == 2 then 100 else 1000
  }

  /** The fractional digits of `f` thousandths (0 < f < 1000) without trailing zeros. */
  function FractionDigits(f: nat): (s: string)
    requires 0 < f < 1000
    ensures 1 <= |s| <= 3 && AllDigits(s) && s[|s| - 1] != '0'
  {
    var h, r := f / 100, f % 100;
    if r == 0 then [DigitChar(h)]
    else if r % 10 == 0 then [DigitChar(h), DigitChar(r / 10)]
    else [DigitChar(h), DigitChar(r / 10), DigitChar(r % 10)]
  }

  /** `String(x)` (and `${x}`) for a number of thousandths: an optional minus sign, the
      integer part, and the fractional digits only when they are not all zero. */
  function NumberText(x: Milli): string
  {
    (if x < 0 then "-" else "") + UnsignedText(Abs(x))
  }

  function UnsignedText(a: nat): string
  {
    if a % 1000 == 0 then NatToString(a / 1000)
    else NatToString(a / 1000) + "." + FractionDigits(a % 1000)
  }

  /** Value in thousandths of a fraction written with 1 to 3 digits. */
  function FractionValue(s: string): nat
    requires 1 <= |s| <= 3 && AllDigits(s)
  {
    DigitsValue(s) * Scale(3 - |s|)
  }

  /** Reads back a decimal written as `[-]digits[.digits]`, in thousandths. */
  function ParseNumber(s: string): Option<Milli>
  {
    if s != [] && s[0] == '-' then
      match ParseUnsigned(s[1..])
      case Some(v) => if v == 0 then None else Some(-v)
      case None => None
    else ParseUnsigned(s)
  }

  function ParseUnsigned(s: string): Option<Milli>
  {
    var i := IndexOf(s, '.');
    var ip := s[..i];
    if ip == [] || !AllDigits(ip) then None
    else if i == |s| then Some(1000 * DigitsValue(ip))
    else
      var fp := s[i + 1..];
      if 1 <= |fp| <= 3 && AllDigits(fp) then Some(1000 * DigitsValue(ip) + FractionValue(fp))
      else None
  }

  lemma DigitsAppend(s: string, d: nat)
    requires AllDigits(s) && d < 10
    ensures AllDigits(s + [DigitChar(d)]) && DigitsValue(s + [DigitChar(d)]) == 10 * DigitsValue(s) + d
  {
    assert (s + [DigitChar(d)])[..|s|] == s;
  }

  lemma FractionDigitsValue(f: nat)
    requires 0 < f < 1000
    ensures FractionValue(FractionDigits(f)) == f
  {
    var h, r := f / 100, f % 100;
    if r == 0 {
      OneDigit(h);
    } else if r % 10 == 0 {
      TwoDigits(h, r / 10);
    } else {
      ThreeDigits(h, r / 10, r % 10);
    }
  }

  lemma OneDigit(h: nat)
    requires h < 10
    ensures DigitsValue([DigitChar(h)]) == h
  {
    DigitsAppend([], h);
    assert [] + [DigitChar(h)] == [DigitChar(h)];
  }

  lemma TwoDigits(h: nat, t: nat)
    requires h < 10 && t < 10
    ensures DigitsValue([DigitChar(h), DigitChar(t)]) == 10 * h + t
  {
    OneDigit(h);
    DigitsAppend([DigitChar(h)], t);
    assert [DigitChar(h)] + [DigitChar(t)] == [DigitChar(h), DigitChar(t)];
  }

  lemma ThreeDigits(h: nat, t: nat, u: nat)
    requires h < 10 && t < 10 && u < 10
    ensures DigitsValue([DigitChar(h), DigitChar(t), DigitChar(u)]) == 100 * h + 10 * t + u
  {
    TwoDigits(h, t);
    DigitsAppend([DigitChar(h), DigitChar(t)], u);
    assert [DigitChar(h), DigitChar(t)] + [DigitChar(u)] == [DigitChar(h), DigitChar(t), DigitChar(u)];
  }

  lemma {:induction false} IndexOfAbsent(s: string, c: char)
    requires c !in s
    ensures IndexOf(s, c) == |s|
  {
    if s != [] {
      IndexOfAbsent(s[1..], c);
    }
  }

  lemma {:induction false} IndexOfAfter(s: string, t: string, c: char)
    requires c !in s && t != [] && t[0] == c
    ensures IndexOf(s + t, c) == |s|
  {
    if s != [] {
      assert (s + t)[1..] == s[1..] + t;
      IndexOfAfter(s[1..], t, c);
    }
  }

  lemma ParseWhole(ip: string)
    requires ip != [] && AllDigits(ip)
    ensures ParseUnsigned(ip) == Some(1000 * DigitsValue(ip))
  {
    assert '.' !in ip;
    IndexOfAbsent(ip, '.');
    assert ip[..|ip|] == ip;
  }

  lemma ParseWithFraction(ip: string, fp: string)
    requires ip != [] && AllDigits(ip) && 1 <= |fp| <= 3 && AllDigits(fp)
    ensures ParseUnsigned(ip + "." + fp) == Some(1000 * DigitsValue(ip) + FractionValue(fp))
  {
    var s := ip + "." + fp;
    assert IndexOf(s, '.') == |ip| by {
      assert '.' !in ip;
      assert s == ip + ("." + fp);
      IndexOfAfter(ip, "." + fp, '.');
    }
    DotSplit(ip, fp);
  }

  lemma UnsignedTextRoundTrip(a: nat)
    ensures ParseUnsigned(UnsignedText(a)) == Some(a)
  {
    var w, f := a / 1000, a % 1000;
    assert a == 1000 * w + f;
    if f == 0 {
      WholeRoundTrip(w);
    } else {
      FractionRoundTrip(w, f);
    }
  }

  lemma WholeRoundTrip(w: nat)
    ensures ParseUnsigned(NatToString(w)) == Some(1000 * w)
  {
    NatToStringRoundTrip(w);
    ParseWhole(NatToString(w));
  }

  lemma FractionRoundTrip(w: nat, f: nat)
    requires 0 < f < 1000
    ensures ParseUnsigned(NatToString(w) + "." + FractionDigits(f)) == Some(1000 * w + f)
  {
    NatToStringRoundTrip(w);
    FractionDigitsValue(f);
    ParseWithFraction(NatToString(w), FractionDigits(f));
  }

  /** `String(x)` loses nothing: reading the text back gives `x`. */
  lemma NumberTextRoundTrip(x: Milli)
    ensures ParseNumber(NumberText(x)) == Some(x)
  {
    var a := Abs(x);
    var u := UnsignedText(a);
    UnsignedTextRoundTrip(a);
    assert u[0] != '-';
    if x < 0 {
      assert NumberText(x)[1..] == u;
    } else {
      assert NumberText(x) == u;
    }
  }

  /** `x.toFixed(d)` for `d` up to 3 on a value of thousandths: a negative value gets a
      minus sign and its magnitude is rounded to `d` decimals, halves upwards. */
  function ToFixed(x: Milli, d: nat): string
    requires d <= 3
  {
    (if x < 0 then "-" else "") + UnitsText(RoundedUnits(Abs(x), d), d)
  }

  /** `a` thousandths rounded to the nearest multiple of 10^-d, halves upwards. */
  function RoundedUnits(a: nat, d: nat): nat
    requires d <= 3
  {
    var q := Scale(3 - d);
    (a + q / 2) / q
  }

  /** `n` units of 10^-d written with exactly `d` fractional digits. */
  function UnitsText(n: nat, d: nat): string
    requires d <= 3
  {
    if d == 0 then NatToString(n)
    else NatToString(n / Scale(d)) + "." + PadDigits(n % Scale(d), d)
  }

  /** The rounding `toFixed` applies is to the nearest multiple of 10^-d, a half going up. */
  lemma RoundedUnitsNearest(a: nat, d: nat)
    requires d <= 3
    ensures var q := Scale(3 - d);
            var n := RoundedUnits(a, d);
            n * q <= a + q / 2 < n * q + q
  {
  }

  lemma {:induction false} NatToStringShort(n: nat, d: nat)
    requires 1 <= d <= 3 && n < Scale(d)
    ensures |NatToString(n)| <= d
  {
    if n >= 10 {
      NatToStringShort(n / 10, d - 1);
    }
  }

  /** `toFixed(d)` with `d > 0` always writes exactly `d` digits after the point. */
  lemma ToFixedDigits(x: Milli, d: nat)
    requires 0 < d <= 3
    ensures var s := ToFixed(x, d);
            |s| > d && s[|s| - d - 1] == '.' && AllDigits(s[|s| - d..])
  {
    var n := RoundedUnits(Abs(x), d);
    NatToStringShort(n % Scale(d), d);
    var tail := PadDigits(n % Scale(d), d);
    assert |tail| == d;
    var s := ToFixed(x, d);
    assert s[|s| - d..] == tail;
  }

  lemma DotSplit(ip: string, fp: string)
    ensures var t := ip + "." + fp; t[..|ip|] == ip && t[|ip| + 1..] == fp
  {
  }

  /** Reading back `toFixed(d)` gives the rounded value: the text is a run of digits, a
      point and exactly `d` digits, which together spell `RoundedUnits`. */
  lemma ToFixedValue(x: Milli, d: nat)
    requires 0 < d <= 3
    ensures var n := RoundedUnits(Abs(x), d);
            var ip := NatToString(n / Scale(d));
            var fp := PadDigits(n % Scale(d), d);
            && UnitsText(n, d) == ip + "." + fp
            && |fp| == d && AllDigits(ip) && AllDigits(fp)
            && DigitsValue(ip) * Scale(d) + DigitsValue(fp) == n
  {
    var n := RoundedUnits(Abs(x), d);
    var q := Scale(d);
    NatToStringShort(n % q, d);
    NatToStringRoundTrip(n / q);
    PadDigitsValue(n % q, d);
    assert n == (n / q) * q + n % q;
  }
}
