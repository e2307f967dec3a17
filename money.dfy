/** Money in integer paise (1 rupee = 100 paise) and the tax split of
    `calculate_amounts`. The source uses binary floats and Python's `round`;
    this model rounds exact quotients to the nearest paisa, ties upwards. */
module Money {
  import opened Wrappers
  import opened Text

  /** GST_RATE = 0.09: each of CGST and SGST is 9 percent of the base amount. */
  const GstPercent: int := 9

  /** `n / d` rounded to the nearest integer, ties towards +infinity. */
  function RoundHalfUp(n: int, d: int): (r: int)
    requires d > 0
    ensures -d <= 2 * (n - d * r) < d
  {
    (2 * n + d) / (2 * d)
  }

  /** Rounding to the nearest integer has exactly one answer. */
  lemma RoundHalfUpUnique(n: int, d: int, r: int)
    requires d > 0 && -d <= 2 * (n - d * r) < d
    ensures r == RoundHalfUp(n, d)
  {
    var q := RoundHalfUp(n, d);
    assert -2 * d < 2 * d * (q - r) < 2 * d by {
      assert 2 * d * (q - r) == 2 * (n - d * r) - 2 * (n - d * q);
    }
    NoSmallMultiple(2 * d, q - r);
  }

  /** A multiple of `a` strictly between -a and a is zero. */
  lemma NoSmallMultiple(a: int, k: int)
    requires a > 0 && -a < a * k < a
    ensures k == 0
  {
    if k > 0 {
      MultipleAtLeast(a, k);
      assert false;
    } else if k < 0 {
      MultipleAtLeast(a, -k);
      assert false;
    }
  }

  lemma {:induction false} MultipleAtLeast(a: int, k: int)
    requires a > 0 && k >= 1
    ensures a * k >= a
    decreases k
  {
    if k > 1 {
      MultipleAtLeast(a, k - 1);
      assert a * k == a * (k - 1) + a;
    }
  }

  /** `calculate_amounts(total)`: the total is tax inclusive at 18 percent
      (CGST 9 + SGST 9). The base is the total divided by 1.18 and rounded to
      the paisa; the per-component tax is 9 percent of that ROUNDED base,
      rounded again. The same `gst` figure is printed as CGST and as SGST. */
  function CalculateAmounts(total: int): (r: (int, int))
    ensures -118 <= 2 * (100 * total - 118 * r.0) < 118
    ensures -100 <= 2 * (GstPercent * r.0 - 100 * r.1) < 100
  {
    var base := RoundHalfUp(100 * total, 118);
    var gst := RoundHalfUp(GstPercent * base, 100);
    (base, gst)
  }

  /** The figures printed for a positive total are positive, and base plus
      both taxes differs from the total by at most one paisa. */
  lemma AmountsWithinOnePaisa(total: int)
    requires total > 0
    ensures var (base, gst) := CalculateAmounts(total);
      base > 0 && gst >= 0 && -1 <= base + 2 * gst - total <= 1
  {
    var (base, gst) := CalculateAmounts(total);
    assert -159 < 100 * (base + 2 * gst - total) <= 159;
  }

  /** Rs. 1180.00 splits into a base of Rs. 1000.00 and Rs. 90.00 for each of
      CGST and SGST. */
  lemma CalculateAmountsExample()
    ensures CalculateAmounts(118000) == (100000, 9000)
  {
    RoundHalfUpUnique(100 * 118000, 118, 100000);
    RoundHalfUpUnique(GstPercent * 100000, 100, 9000);
  }

  /** Python's `f"{x:.2f}"` for an amount of `p` paise. */
  function FormatAmount(p: int): (s: string)
    ensures |s| >= 4
  {
    (if p < 0 then "-" else "") + UnsignedAmount(Magnitude(p))
  }

  /** The digits, point and two decimals printed for `a` paise. */
  function UnsignedAmount(a: nat): (s: string)
    ensures |s| >= 4 && IsDigit(s[0])
  {
    NatToString(a / 100) + "." + Pad2(a % 100)
  }

  /** Position of the first `c` in `s`, or |s| if there is none. */
  function IndexOf(s: string, c: char): (k: nat)
    ensures k <= |s|
    ensures k < |s| ==> s[k] == c
    ensures forall i :: 0 <= i < k ==> s[i] != c
  {
    if s == [] then 0 else if s[0] == c then 0 else 1 + IndexOf(s[1..], c)
  }

  function FractionValue(f: string): (n: nat)
    requires |f| <= 2 && AllDigits(f)
    ensures n < 100
  {
    if |f| == 0 then 0 else if |f| == 1 then DigitValue(f[0]) * 10 else Value2(f)
  }

  /** An unsigned decimal with at most two places: digits, then optionally a
      point and up to two digits. */
  function ParseUnsigned(s: string): (r: Option<nat>)
  {
    var k := IndexOf(s, '.');
    if k == 0 || !AllDigits(s[..k]) then None
    else if k == |s| then Some(DigitsValue(s) * 100)
    else if |s| - (k + 1) > 2 || !AllDigits(s[k + 1..]) then None
    else Some(DigitsValue(s[..k]) * 100 + FractionValue(s[k + 1..]))
  }

  /** `float(s)` converted to paise, for the plain decimal forms the billing
      form accepts: an optional minus sign, digits, and at most two places. */
  function ParseAmount(s: string): (r: Option<int>)
  {
    if |s| > 0 && s[0] == '-' then
      match ParseUnsigned(s[1..])
      case None => None
      case Some(v) => Some(0 - v)
    else
      match ParseUnsigned(s)
      case None => None
      case Some(v) => Some(v as int)
  }

  lemma IndexOfAfterDigits(w: string, f: string)
    requires AllDigits(w)
    ensures IndexOf(w + "." + f, '.') == |w|
  {
    var s := w + "." + f;
    var k := IndexOf(s, '.');
    assert s[|w|] == '.';
  }

  /** Whole digits, a point and two decimals read as that many paise. */
  lemma ParseUnsignedParts(s: string, w: string, f: string)
    requires 1 <= |w| && AllDigits(w) && |f| == 2 && AllDigits(f)
    requires s == w + "." + f
    ensures ParseUnsigned(s) == Some(DigitsValue(w) * 100 + Value2(f))
  {
    IndexOfAfterDigits(w, f);
    assert s[..|w|] == w && s[|w| + 1..] == f;
    ParseUnsignedAt(s, |w|, w, f);
  }

  lemma ParseUnsignedAt(s: string, k: nat, w: string, f: string)
    requires 1 <= k && k == IndexOf(s, '.') && |s| == k + 3
    requires s[..k] == w && AllDigits(w) && s[k + 1..] == f && AllDigits(f)
    ensures ParseUnsigned(s) == Some(DigitsValue(w) * 100 + Value2(f))
  {
  }

  lemma ParseUnsignedFormat(a: nat)
    ensures ParseUnsigned(UnsignedAmount(a)) == Some(a)
  {
    var w, f := NatToString(a / 100), Pad2(a % 100);
    NatToStringRoundTrip(a / 100);
    Pad2RoundTrip(a % 100);
    ParseUnsignedParts(UnsignedAmount(a), w, f);
  }

  /** A leading minus sign negates the unsigned reading of the rest. */
  lemma ParseAmountNegative(s: string, body: string)
    requires |s| == |body| + 1 && s[0] == '-' && s[1..] == body
    requires ParseUnsigned(body).Some?
    ensures ParseAmount(s) == Some(0 - ParseUnsigned(body).value as int)
  {
  }

  /** Reading back a printed amount gives the same number of paise. */
  lemma ParseFormatAmount(p: int)
    ensures ParseAmount(FormatAmount(p)) == Some(p)
  {
    var body := UnsignedAmount(Magnitude(p));
    ParseUnsignedFormat(Magnitude(p));
    if p < 0 {
      var s := FormatAmount(p);
      assert s[1..] == body;
      ParseAmountNegative(s, body);
    } else {
      assert FormatAmount(p) == body;
    }
  }
}
