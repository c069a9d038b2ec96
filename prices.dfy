/**
 * Reading a price string such as "₹1,299" as a number, the way the cart and
 * checkout screens do: `parseFloat(price.replace(/[^\d.]/g, '') || '0')`.
 * A number is a `real`; JavaScript's NaN is `None`.
 */
module Prices {
  import opened Wrappers

  predicate IsDigit(c: char) {
    '0' <= c <= '9'
  }

  /** A character that survives `replace(/[^\d.]/g, '')`. */
  predicate IsPriceChar(c: char) {
    IsDigit(c) || c == '.'
  }

  predicate AllPriceChars(s: string) {
    forall i | 0 <= i < |s| :: IsPriceChar(s[i])
  }

  /** `s.replace(/[^\d.]/g, '')`: the digits and dots of `s`, in order. */
  function StripPrice(s: string): (r: string)
    ensures |r| <= |s|
    ensures AllPriceChars(r)
  {
    if s == [] then []
    else (if IsPriceChar(s[0]) then [s[0]] else []) + StripPrice(s[1..])
  }

  /** A string of digits and dots is left as it is by the stripping. */
  lemma {:induction false} StripPriceOfPriceChars(s: string)
    requires AllPriceChars(s)
    ensures StripPrice(s) == s
  {
    if s != [] {
      assert AllPriceChars(s[1..]) by {
        forall i | 0 <= i < |s[1..]| ensures IsPriceChar(s[1..][i]) {
          assert s[1..][i] == s[i + 1];
        }
      }
      StripPriceOfPriceChars(s[1..]);
    }
  }

  /** Stripping twice is stripping once. */
  lemma StripPriceIdempotent(s: string)
    ensures StripPrice(StripPrice(s)) == StripPrice(s)
  {
    StripPriceOfPriceChars(StripPrice(s));
  }

  /** The number of leading digits of `s`. */
  function LeadingDigits(s: string): (n: nat)
    ensures n <= |s|
    ensures forall i | 0 <= i < n :: IsDigit(s[i])
    ensures n == |s| || !IsDigit(s[n])
  {
    if s != [] && IsDigit(s[0]) then 1 + LeadingDigits(s[1..]) else 0
  }

  /** The value of a string of decimal digits. */
  function DigitsValue(s: string): nat
    requires forall i | 0 <= i < |s| :: IsDigit(s[i])
  {
    if s == [] then 0
    else
      assert IsDigit(s[|s| - 1]);
      10 * DigitsValue(s[..|s| - 1]) + (s[|s| - 1] as int - '0' as int)
  }

  function Pow10(n: nat): (r: nat)
    ensures r >= 1
  {
    if n == 0 then 1 else 10 * Pow10(n - 1)
  }

  /** The number that whole digits, a dot and fraction digits spell. */
  function DecimalValue(whole: string, frac: string): (r: real)
    requires forall i | 0 <= i < |whole| :: IsDigit(whole[i])
    requires forall i | 0 <= i < |frac| :: IsDigit(frac[i])
    ensures r >= DigitsValue(whole) as real >= 0.0
    ensures frac == [] ==> r == DigitsValue(whole) as real
  {
    DigitsValue(whole) as real + DigitsValue(frac) as real / Pow10(|frac|) as real
  }

  /**
   * `parseFloat(t)` for a string of digits and dots: the longest prefix of the
   * form `d+`, `d+.d*` or `.d+`, and NaN when there is none.
   */
  function ParseDigitsAndDots(t: string): (r: Option<real>)
    requires AllPriceChars(t)
    ensures r.Some? ==> r.value >= 0.0
    ensures r.None? <==> t == [] || (t[0] == '.' && (|t| == 1 || t[1] == '.'))
  {
    var n := LeadingDigits(t);
    if n < |t| && t[n] == '.' then
      var frac := t[n + 1..];
      var m := LeadingDigits(frac);
      if n == 0 && m == 0 then None
      else Some(DecimalValue(t[..n], frac[..m]))
    else if n == 0 then None
    else Some(DigitsValue(t[..n]) as real)
  }

  /**
   * The number a price string reads as; `None` is NaN. It is never negative,
   * and it is NaN exactly when the digits and dots start with a dot that no
   * digit follows.
   */
  function PriceValue(price: string): (r: Option<real>)
    ensures r.Some? ==> r.value >= 0.0
    ensures var t := StripPrice(price);
            r.None? <==> t != [] && t[0] == '.' && (|t| == 1 || t[1] == '.')
  {
    var t := StripPrice(price);
    ParseDigitsAndDots(if t == "" then "0" else t)
  }

  /** A price without digits or dots reads as 0 (the `|| '0'` fallback). */
  lemma PriceWithoutDigitsIsZero(price: string)
    requires forall i | 0 <= i < |price| :: !IsPriceChar(price[i])
    ensures PriceValue(price) == Some(0.0)
  {
    PriceWithoutDigitsStripsToEmpty(price);
    assert LeadingDigits("0") == 1;
    assert "0"[..1] == "0";
  }

  lemma {:induction false} PriceWithoutDigitsStripsToEmpty(s: string)
    requires forall i | 0 <= i < |s| :: !IsPriceChar(s[i])
    ensures StripPrice(s) == []
  {
    if s != [] {
      assert forall i | 0 <= i < |s[1..]| :: !IsPriceChar(s[1..][i]) by {
        forall i | 0 <= i < |s[1..]| ensures !IsPriceChar(s[1..][i]) {
          assert s[1..][i] == s[i + 1];
        }
      }
      PriceWithoutDigitsStripsToEmpty(s[1..]);
    }
  }

  /** A price made of a currency sign and whole digits reads as the value of those digits. */
  lemma PriceOfWholeAmount(sign: char, digits: string)
    requires !IsPriceChar(sign)
    requires digits != [] && forall i | 0 <= i < |digits| :: IsDigit(digits[i])
    ensures PriceValue([sign] + digits) == Some(DigitsValue(digits) as real)
  {
    var s := [sign] + digits;
    assert s[1..] == digits;
    StripPriceOfPriceChars(digits);
    assert StripPrice(s) == digits;
    assert LeadingDigits(digits) == |digits|;
    assert digits[..|digits|] == digits;
  }

  /** Leading digits run through a block of digits into whatever follows it. */
  lemma {:induction false} LeadingDigitsAfterDigits(d: string, rest: string)
    requires forall i | 0 <= i < |d| :: IsDigit(d[i])
    ensures LeadingDigits(d + rest) == |d| + LeadingDigits(rest)
  {
    if d == [] {
      assert d + rest == rest;
    } else {
      assert (d + rest)[0] == d[0] && IsDigit(d[0]);
      assert (d + rest)[1..] == d[1..] + rest;
      LeadingDigitsAfterDigits(d[1..], rest);
    }
  }

  /** Digits and dots joined are digits and dots. */
  lemma PriceCharsAppend(x: string, y: string)
    requires AllPriceChars(x) && AllPriceChars(y)
    ensures AllPriceChars(x + y)
  {
    forall i | 0 <= i < |x + y| ensures IsPriceChar((x + y)[i]) {
      if i >= |x| { assert (x + y)[i] == y[i - |x|]; }
    }
  }

  /**
   * `parseFloat(a + "." + b)` for digit strings `a` and `b`: the whole part is
   * `a` and the fraction is `b` scaled by its own length; NaN only for ".".
   */
  lemma ParseDecimal(a: string, b: string)
    requires forall i | 0 <= i < |a| :: IsDigit(a[i])
    requires forall i | 0 <= i < |b| :: IsDigit(b[i])
    ensures AllPriceChars(a + "." + b)
    ensures ParseDigitsAndDots(a + "." + b) ==
              if a == [] && b == [] then None
              else Some(DecimalValue(a, b))
  {
    var t := a + "." + b;
    PriceCharsAppend(a, ".");
    PriceCharsAppend(a + ".", b);
    LeadingDigitsAfterDigits(a, "." + b);
    assert t == a + ("." + b);
    assert t[..|a|] == a && t[|a|] == '.' && t[|a| + 1..] == b;
    LeadingDigitsAfterDigits(b, []);
    assert b + [] == b && b[..|b|] == b;
  }

  /** `parseFloat` stops at a second dot: whatever follows it is ignored. */
  lemma SecondDotEndsNumber(a: string, b: string, c: string)
    requires forall i | 0 <= i < |a| :: IsDigit(a[i])
    requires forall i | 0 <= i < |b| :: IsDigit(b[i])
    requires AllPriceChars(c)
    ensures AllPriceChars(a + "." + b + "." + c)
    ensures ParseDigitsAndDots(a + "." + b + "." + c) == ParseDigitsAndDots(a + "." + b)
  {
    ParseDecimal(a, b);
    var t := a + "." + b + "." + c;
    PriceCharsAppend(a + "." + b, ".");
    PriceCharsAppend(a + "." + b + ".", c);
    var f := b + ("." + c);
    assert t == a + ("." + f);
    assert ("." + f)[0] == '.' && LeadingDigits("." + f) == 0;
    LeadingDigitsAfterDigits(a, "." + f);
    assert t[..|a|] == a && t[|a|] == '.' && t[|a| + 1..] == f;
    assert ("." + c)[0] == '.' && LeadingDigits("." + c) == 0;
    LeadingDigitsAfterDigits(b, "." + c);
    assert f[..|b|] == b;
  }

  /**
   * A price made of a currency sign, whole digits, a dot and fraction digits
   * reads as the decimal number they spell.
   */
  lemma PriceOfDecimalAmount(sign: char, a: string, b: string)
    requires !IsPriceChar(sign)
    requires forall i | 0 <= i < |a| :: IsDigit(a[i])
    requires forall i | 0 <= i < |b| :: IsDigit(b[i])
    requires a != [] || b != []
    ensures PriceValue([sign] + a + "." + b)
              == Some(DecimalValue(a, b))
  {
    ParseDecimal(a, b);
    var s := [sign] + a + "." + b;
    assert s[1..] == a + "." + b;
    StripPriceOfPriceChars(a + "." + b);
    assert StripPrice(s) == a + "." + b;
  }
}
