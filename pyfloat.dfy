/** Python's `float(str)` on the decimal notation the core meets, and decimal rendering of
    naturals (for `str(int)`). */
module PyFloat {
  import opened Wrappers
  import opened Strings

  predicate AllDigits(s: string) {
    forall i :: 0 <= i < |s| ==> IsDigit(s[i])
  }

  function DigitValue(c: char): nat
    requires IsDigit(c)
  {
    c as int - '0' as int
  }

  function DigitChar(n: nat): (c: char)
    requires n < 10
    ensures IsDigit(c) && DigitValue(c) == n
  {
    ('0' as int + n) as char
  }

  /** The number a string of decimal digits denotes (0 for the empty string). */
  function DigitsValue(s: string): nat
    requires AllDigits(s)
  {
    if s == [] then 0 else DigitsValue(s[..|s| - 1]) * 10 + DigitValue(s[|s| - 1])
  }

  function Pow10(n: nat): (r: nat)
    ensures r >= 1
  {
    if n == 0 then 1 else 10 * Pow10(n - 1)
  }

  /** The value of the literal `a.b`: the integer part plus the fraction scaled by its length. */
  function Decimal(a: string, b: string): real
    requires AllDigits(a) && AllDigits(b)
  {
    DigitsValue(a) as real + DigitsValue(b) as real / Pow10(|b|) as real
  }

  /** An unsigned decimal literal: digits, optionally a point and more digits, with at least one
      digit on some side of the point ("5", "5.", ".5", "12.50"). */
  function Unsigned(t: string): (r: Option<real>)
  {
    var parts := Split(t, '.');
    if |parts| == 1 then
      if t != [] && AllDigits(t) then Some(DigitsValue(t) as real) else None
    else if |parts| == 2 then
      var a, b := parts[0], parts[1];
      if AllDigits(a) && AllDigits(b) && |a| + |b| > 0
      then Some(Decimal(a, b))
      else None
    else None
  }

  /** `float(s)`: surrounding whitespace is ignored, then an optional sign and an unsigned
      decimal literal; anything else is a ValueError (None). */
  function Float(s: string): (r: Option<real>)
  {
    var t := Strip(s);
    if t != [] && t[0] == '-' then
      match Unsigned(t[1..])
      case Some(v) => Some(-v)
      case None => None
    else if t != [] && t[0] == '+' then Unsigned(t[1..])
    else Unsigned(t)
  }

  lemma DigitsValueAppend(s: string, c: char)
    requires AllDigits(s) && IsDigit(c)
    ensures AllDigits(s + [c]) && DigitsValue(s + [c]) == DigitsValue(s) * 10 + DigitValue(c)
  {
    assert (s + [c])[..|s|] == s;
  }

  lemma DigitsHaveNoPoint(s: string)
    requires AllDigits(s)
    ensures '.' !in s && (s != [] ==> !IsSpace(s[0]) && !IsSpace(s[|s| - 1]))
  {
    forall i | 0 <= i < |s| ensures s[i] != '.' {
      assert IsDigit(s[i]);
    }
  }

  /** `float()` of a plain digit string is its value. */
  lemma FloatOfDigits(a: string)
    requires a != [] && AllDigits(a)
    ensures Float(a) == Some(DigitsValue(a) as real)
  {
    DigitsHaveNoPoint(a);
    assert TrimLeft(a) == a;
    assert TrimRight(a) == a;
    SplitNoSep(a, '.');
  }

  /** `float()` of `digits.digits` is the integer part plus the scaled fraction. */
  lemma FloatOfDecimal(a: string, b: string)
    requires a != [] && AllDigits(a) && AllDigits(b)
    ensures Float(a + "." + b) == Some(Decimal(a, b))
  {
    var t := a + ['.'] + b;
    assert a + "." + b == t;
    DigitsHaveNoPoint(a);
    DigitsHaveNoPoint(b);
    assert t[0] == a[0];
    assert t[|t| - 1] == if b == [] then '.' else b[|b| - 1];
    StripNoop(t);
    UnsignedOfDecimal(a, b);
  }

  lemma UnsignedOfDecimal(a: string, b: string)
    requires AllDigits(a) && AllDigits(b) && |a| + |b| > 0
    ensures Unsigned(a + ['.'] + b) == Some(Decimal(a, b))
  {
    DigitsHaveNoPoint(a);
    DigitsHaveNoPoint(b);
    var t := a + ['.'] + b;
    SplitConcat(a, b, '.');
    SplitNoSep(b, '.');
    var parts := Split(t, '.');
    assert parts == [a, b];
  }

  /** `str(n)` for a natural number. */
  function Render(n: nat): (s: string)
    ensures s != [] && AllDigits(s)
  {
    if n < 10 then [DigitChar(n)] else Render(n / 10) + [DigitChar(n % 10)]
  }

  /** Reading back a rendered natural gives the natural. */
  lemma {:induction false} RenderValue(n: nat)
    ensures DigitsValue(Render(n)) == n
  {
    if n >= 10 {
      RenderValue(n / 10);
      var s := Render(n);
      assert s[..|s| - 1] == Render(n / 10);
    }
  }

  /** `float(str(n)) == n` */
  lemma FloatOfRender(n: nat)
    ensures Float(Render(n)) == Some(n as real)
  {
    var s := Render(n);
    RenderValue(n);
    assert !IsSpace(s[0]) && !IsSpace(s[|s| - 1]);
    assert TrimLeft(s) == s;
    assert TrimRight(s) == s;
    DigitsHaveNoPoint(s);
    SplitNoSep(s, '.');
  }

  /** Whitespace around the literal does not change what `float()` reads. */
  lemma FloatIgnoresSurroundingSpace(s: string)
    ensures Float(Strip(s)) == Float(s)
  {
    StripIdempotent(s);
  }
}
