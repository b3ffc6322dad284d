/** JavaScript number helpers, on exact integers: `parseInt` (no radix argument),
    `x || fallback` on its result, and `Math.round`/`Math.ceil` of a quotient.
    The source computes these on IEEE doubles; exact arithmetic here means the
    model has none of the floating-point fuzz (`0.145 * 100 == 14.499999999999998`). */
module JsNumbers {
  import opened Wrappers
  import opened Text

  // ---------------------------------------------------------------------------
  // Rounding

  /** `Math.round(n / d)` for `d > 0`: half-way cases round up, towards +infinity. */
  function RoundDiv(n: int, d: int): (r: int)
    requires d > 0
    ensures 2 * d * r - d <= 2 * n < 2 * d * r + d
  {
    var q := (2 * n + d) / (2 * d);
    assert 2 * d * q <= 2 * n + d < 2 * d * q + 2 * d;
    q
  }

  /** Rounding a quotient stays within any integer bounds the exact quotient lies in. */
  lemma RoundDivBetween(n: int, d: int, lo: int, hi: int)
    requires d > 0 && d * lo <= n <= d * hi
    ensures lo <= RoundDiv(n, d) <= hi
  {
    var r := RoundDiv(n, d);
    assert 2 * d * (hi + 1 - r) == 2 * d * hi + 2 * d - 2 * d * r;
    ProductPositive(2 * d, hi + 1 - r);
    assert 2 * d * (r + 1 - lo) == 2 * d * r + 2 * d - 2 * d * lo;
    ProductPositive(2 * d, r + 1 - lo);
  }

  lemma ProductPositive(d: int, x: int)
    requires d > 0 && d * x > 0
    ensures x > 0
  {
    if x <= 0 {
      ProductNonPositive(d, x);
    }
  }

  lemma ProductNonPositive(d: int, x: int)
    requires d > 0 && x <= 0
    ensures d * x <= 0
  {
  }

  /** Rounding an exact quotient gives that quotient. */
  lemma RoundDivExact(k: int, d: int)
    requires d > 0
    ensures RoundDiv(d * k, d) == k
  {
    RoundDivBetween(d * k, d, k, k);
  }

  /** `Math.round(100 * part / whole)`: a whole percentage in [0, 100]. */
  lemma PercentInRange(part: int, whole: int)
    requires 0 <= part <= whole && whole > 0
    ensures 0 <= RoundDiv(100 * part, whole) <= 100
  {
    RoundDivBetween(100 * part, whole, 0, 100);
  }

  /** The rounding bounds of a percentage, with the factors distributed. */
  lemma PercentBounds(part: int, whole: int)
    requires whole > 0
    ensures var r := RoundDiv(100 * part, whole);
      whole * (2 * r - 1) <= 200 * part < whole * (2 * r + 1)
  {
    var r := RoundDiv(100 * part, whole);
    assert whole * (2 * r - 1) == 2 * whole * r - whole;
    assert whole * (2 * r + 1) == 2 * whole * r + whole;
  }

  /** `Math.ceil(n / d)` for `d > 0`. */
  function CeilDiv(n: int, d: int): (r: int)
    requires d > 0
    ensures d * (r - 1) < n <= d * r
  {
    var q := (-n) / d;
    assert d * q <= -n < d * q + d;
    -q
  }

  // ---------------------------------------------------------------------------
  // parseInt

  /** The value of `c` as a digit in the given radix, if it is one. */
  function DigitValue(c: char, radix: nat): Option<nat>
    requires 2 <= radix <= 36
  {
    var v :=
      if '0' <= c <= '9' then c as int - '0' as int
      else if 'a' <= c <= 'z' then c as int - 'a' as int + 10
      else if 'A' <= c <= 'Z' then c as int - 'A' as int + 10
      else 36;
    if v < radix then Some(v) else None
  }

  /** The number of leading characters of `s` that are digits in `radix`. */
  function DigitRun(s: string, radix: nat): (n: nat)
    requires 2 <= radix <= 36
    ensures n <= |s|
    ensures forall i :: 0 <= i < n ==> DigitValue(s[i], radix).Some?
    ensures n < |s| ==> DigitValue(s[n], radix).None?
  {
    if |s| > 0 && DigitValue(s[0], radix).Some? then 1 + DigitRun(s[1..], radix) else 0
  }

  /** The number the digits `s` spell in `radix`, most significant first. */
  function DigitsValue(s: string, radix: nat): nat
    requires 2 <= radix <= 36
    requires forall i :: 0 <= i < |s| ==> DigitValue(s[i], radix).Some?
  {
    if |s| == 0 then 0
    else
      var high := DigitsValue(s[..|s| - 1], radix);
      NatProduct(high, radix);
      high * radix + DigitValue(s[|s| - 1], radix).value
  }

  lemma NatProduct(a: nat, b: nat)
    ensures a * b >= 0
  {
  }

  /** `parseInt(s)`: skip leading whitespace, read an optional sign, a `0x`/`0X`
      prefix selects radix 16, then the longest run of digits; `None` is `NaN`
      (no digit at all). Characters after the digits are ignored. */
  function ParseInt(s: string): (r: Option<int>)
  {
    ParseSigned(s[LeadingSpaces(s)..])
  }

  /** `parseInt` after the whitespace: an optional sign, then the digits. */
  function ParseSigned(t: string): (r: Option<int>)
  {
    var negative := |t| > 0 && t[0] == '-';
    var digits := if |t| > 0 && (t[0] == '-' || t[0] == '+') then t[1..] else t;
    var v := ParseUnsigned(digits);
    if v.None? then None
    else var n: int := v.value; Some(if negative then -n else n)
  }

  /** `parseInt` after the sign: a `0x`/`0X` prefix selects radix 16, then the
      longest run of digits; `None` when there is no digit. */
  function ParseUnsigned(u: string): (r: Option<nat>)
  {
    var hex := |u| >= 2 && u[0] == '0' && (u[1] == 'x' || u[1] == 'X');
    var radix := if hex then 16 else 10;
    var body := if hex then u[2..] else u;
    var n := DigitRun(body, radix);
    if n == 0 then None else Some(DigitsValue(body[..n], radix))
  }

  /** `parseInt(x) || fallback`: `NaN` and `0` (also `-0`) both select the fallback. */
  function OrDefault(p: Option<int>, fallback: int): (r: int)
    ensures r == fallback || (p.Some? && r == p.value)
    ensures r == 0 ==> fallback == 0
  {
    match p
    case Some(v) => if v != 0 then v else fallback
    case None => fallback
  }

  // ---------------------------------------------------------------------------
  // parseInt undoes the decimal rendering

  lemma DigitsAreNotSpaces(s: string)
    requires forall i :: 0 <= i < |s| ==> IsDigit(s[i])
    ensures LeadingSpaces(s) == 0
  {
    if |s| > 0 {
      assert IsDigit(s[0]);
      assert !IsJsSpace(s[0]);
    }
  }

  lemma {:induction false} DigitRunOfDigits(s: string)
    requires forall i :: 0 <= i < |s| ==> IsDigit(s[i])
    ensures DigitRun(s, 10) == |s|
    decreases |s|
  {
    if |s| > 0 {
      assert DigitValue(s[0], 10).Some?;
      DigitRunOfDigits(s[1..]);
    }
  }

  lemma {:induction false} DigitsValueOfNatToString(n: nat)
    ensures forall i :: 0 <= i < |NatToString(n)| ==> DigitValue(NatToString(n)[i], 10).Some?
    ensures DigitsValue(NatToString(n), 10) == n
  {
    var s := NatToString(n);
    forall i | 0 <= i < |s| ensures DigitValue(s[i], 10).Some? {
      assert IsDigit(s[i]);
    }
    if n < 10 {
      assert s == [DigitChar(n)];
      assert s[..0] == [];
    } else {
      DigitsValueOfNatToString(n / 10);
      var p := NatToString(n / 10);
      assert s == p + [DigitChar(n % 10)];
      assert s[..|s| - 1] == p;
      assert DigitValue(s[|s| - 1], 10).value == n % 10;
      assert DigitsValue(s, 10) == (n / 10) * 10 + n % 10;
    }
  }

  /** `parseInt(String(n)) == n` for every non-negative integer. */
  lemma ParseNatToString(n: nat)
    ensures ParseInt(NatToString(n)) == Some(n)
  {
    var s := NatToString(n);
    DigitsValueOfNatToString(n);
    DigitsAreNotSpaces(s);
    assert s[0..] == s;
    assert s[0] != '+' && s[0] != '-' by { assert IsDigit(s[0]); }
    ParseDecimal(s);
  }

  /** `parseInt(String(i)) == i` for every integer, negative ones included. */
  lemma ParseIntToString(i: int)
    ensures ParseInt(IntToString(i)) == Some(i)
  {
    if i >= 0 {
      ParseNatToString(i);
    } else {
      var d := NatToString(-i);
      var s := "-" + d;
      DigitsValueOfNatToString(-i);
      assert s == IntToString(i);
      assert !IsJsSpace('-');
      assert LeadingSpaces(s) == 0;
      assert s[0..] == s;
      assert s[1..] == d;
      ParseDecimal(d);
    }
  }

  /** Decimal digits without a redundant leading zero read back as the number they spell. */
  lemma ParseDecimal(s: string)
    requires |s| > 0 && forall i :: 0 <= i < |s| ==> IsDigit(s[i])
    requires s[0] == '0' ==> |s| == 1
    requires forall i :: 0 <= i < |s| ==> DigitValue(s[i], 10).Some?
    ensures ParseUnsigned(s) == Some(DigitsValue(s, 10))
  {
    DigitRunOfDigits(s);
    assert s[..|s|] == s;
  }
}
