/** Character and string helpers shared by the invoice numbering, the money
    formatting, the date handling and the search filters. */
module Text {
  import opened Wrappers

  predicate IsDigit(c: char) { '0' <= c <= '9' }

  predicate AllDigits(s: string) { forall i :: 0 <= i < |s| ==> IsDigit(s[i]) }

  function DigitChar(n: nat): (c: char)
    requires n < 10
    ensures IsDigit(c)
  {
    ['0', '1', '2', '3', '4', '5', '6', '7', '8', '9'][n]
  }

  function DigitValue(c: char): (n: nat)
    requires IsDigit(c)
    ensures n < 10 && DigitChar(n) == c
  {
    (c as int - '0' as int) as nat
  }

  lemma DigitValueOfChar(n: nat)
    requires n < 10
    ensures DigitValue(DigitChar(n)) == n
  {
  }

  /** The value of a run of decimal digits, most significant first. */
  function DigitsValue(s: string): (n: nat)
    requires AllDigits(s)
  {
    if s == [] then 0 else DigitsValue(s[..|s| - 1]) * 10 + DigitValue(s[|s| - 1])
  }

  /** Python's `str(n)` for a non-negative integer: no leading zeros. */
  function NatToString(n: nat): (s: string)
    ensures 1 <= |s| && AllDigits(s)
    ensures |s| > 1 ==> s[0] != '0'
  {
    if n < 10 then [DigitChar(n)] else NatToString(n / 10) + [DigitChar(n % 10)]
  }

  lemma {:induction false} NatToStringRoundTrip(n: nat)
    ensures DigitsValue(NatToString(n)) == n
  {
    var s := NatToString(n);
    if n < 10 {
      DigitValueOfChar(n);
    } else {
      NatToStringRoundTrip(n / 10);
      assert s[..|s| - 1] == NatToString(n / 10);
      DigitValueOfChar(n % 10);
    }
  }

  /** The absolute value. */
  function Magnitude(n: int): (m: nat)
    ensures m == n || m == -n
  {
    if n < 0 then -n else n
  }

  /** Python's `str(n)` for any integer. */
  function IntToString(n: int): (s: string)
    ensures 1 <= |s|
  {
    if n < 0 then "-" + NatToString(Magnitude(n)) else NatToString(Magnitude(n))
  }

  /** The inverse of IntToString: an optional minus sign and one or more digits. */
  function ParseInt(s: string): (r: Option<int>)
  {
    if |s| > 1 && s[0] == '-' && AllDigits(s[1..]) then Some(0 - DigitsValue(s[1..]) as int)
    else if |s| > 0 && AllDigits(s) then Some(DigitsValue(s))
    else None
  }

  /** ParseInt reads a run of digits. */
  lemma ParseIntDigits(t: string)
    requires 1 <= |t| && AllDigits(t)
    ensures ParseInt(t) == Some(DigitsValue(t) as int)
  {
    assert t[0] != '-' by {
      assert IsDigit(t[0]);
    }
  }

  /** ParseInt reads a minus sign followed by a run of digits. */
  lemma ParseIntNegative(s: string, t: string)
    requires 1 <= |t| && AllDigits(t)
    requires |s| == |t| + 1 && s[0] == '-' && s[1..] == t
    ensures ParseInt(s) == Some(0 - DigitsValue(t) as int)
  {
  }

  lemma IntToStringRoundTrip(n: int)
    ensures ParseInt(IntToString(n)) == Some(n)
  {
    NatToStringRoundTrip(Magnitude(n));
    if n < 0 {
      var s, t := IntToString(n), NatToString(Magnitude(n));
      assert s[1..] == t;
      ParseIntNegative(s, t);
    } else {
      ParseIntDigits(NatToString(Magnitude(n)));
    }
  }

  /** Different integers print differently. */
  lemma IntToStringInjective(a: int, b: int)
    requires IntToString(a) == IntToString(b)
    ensures a == b
  {
    IntToStringRoundTrip(a);
    IntToStringRoundTrip(b);
  }

  /** Two-digit zero-padded decimal, as `%02d`, `%d` and `%m` print. */
  function Pad2(n: nat): (s: string)
    requires n < 100
    ensures |s| == 2 && AllDigits(s)
  {
    [DigitChar(n / 10), DigitChar(n % 10)]
  }

  /** Four-digit zero-padded decimal, as `%Y` prints. */
  function Pad4(n: nat): (s: string)
    requires n < 10000
    ensures |s| == 4 && AllDigits(s)
  {
    Pad2(n / 100) + Pad2(n % 100)
  }

  function Value2(s: string): (n: nat)
    requires |s| == 2 && AllDigits(s)
    ensures n < 100
  {
    DigitValue(s[0]) * 10 + DigitValue(s[1])
  }

  function Value4(s: string): (n: nat)
    requires |s| == 4 && AllDigits(s)
    ensures n < 10000
  {
    Value2(s[..2]) * 100 + Value2(s[2..])
  }

  lemma Pad2RoundTrip(n: nat)
    requires n < 100
    ensures Value2(Pad2(n)) == n
  {
    DigitValueOfChar(n / 10);
    DigitValueOfChar(n % 10);
  }

  lemma DivMod10(q: nat, r: nat)
    requires r < 10
    ensures (q * 10 + r) / 10 == q && (q * 10 + r) % 10 == r
  {
  }

  lemma DivMod100(q: nat, r: nat)
    requires r < 100
    ensures (q * 100 + r) / 100 == q && (q * 100 + r) % 100 == r
  {
  }

  lemma Value2RoundTrip(s: string)
    requires |s| == 2 && AllDigits(s)
    ensures Pad2(Value2(s)) == s
  {
    var a, b := DigitValue(s[0]), DigitValue(s[1]);
    DivMod10(a, b);
    assert Pad2(a * 10 + b) == [DigitChar(a), DigitChar(b)];
    assert s == [s[0], s[1]];
  }

  lemma Pad4RoundTrip(n: nat)
    requires n < 10000
    ensures Value4(Pad4(n)) == n
  {
    var s := Pad4(n);
    assert s[..2] == Pad2(n / 100) && s[2..] == Pad2(n % 100);
    Pad2RoundTrip(n / 100);
    Pad2RoundTrip(n % 100);
  }

  lemma Pad4OfHalves(hi: nat, lo: nat, v: nat)
    requires hi < 100 && lo < 100 && v == hi * 100 + lo
    ensures Pad4(v) == Pad2(hi) + Pad2(lo)
  {
    DivMod100(hi, lo);
    assert v / 100 == hi && v % 100 == lo;
  }

  lemma Value4RoundTrip(s: string)
    requires |s| == 4 && AllDigits(s)
    ensures Pad4(Value4(s)) == s
  {
    var a, b := s[..2], s[2..];
    var hi, lo := Value2(a), Value2(b);
    Value2RoundTrip(a);
    Value2RoundTrip(b);
    Pad4OfHalves(hi, lo, Value4(s));
    assert s == a + b;
  }

  /** ASCII lower-casing of one character, as `str.lower` does on ASCII text. */
  function LowerChar(c: char): char
  {
    if 'A' <= c <= 'Z' then (c as int + 32) as char else c
  }

  function Lower(s: string): (r: string)
    ensures |r| == |s|
    ensures forall i :: 0 <= i < |s| ==> r[i] == LowerChar(s[i])
  {
    seq(|s|, i requires 0 <= i < |s| => LowerChar(s[i]))
  }

  /** `s.replace(a, b)` for single characters. */
  function ReplaceChar(s: string, a: char, b: char): (r: string)
    ensures |r| == |s|
    ensures forall i :: 0 <= i < |s| ==> r[i] == (if s[i] == a then b else s[i])
  {
    seq(|s|, i requires 0 <= i < |s| => if s[i] == a then b else s[i])
  }

  /** `needle` occurs in `hay` starting at index `i`. */
  predicate OccursAt(needle: string, hay: string, i: nat)
  {
    i + |needle| <= |hay| && hay[i..i + |needle|] == needle
  }

  /** Python's `needle in hay` on strings. */
  predicate Contains(hay: string, needle: string)
  {
    exists i: nat | i <= |hay| :: OccursAt(needle, hay, i)
  }

  lemma ContainsEmpty(hay: string)
    ensures Contains(hay, "")
  {
    assert OccursAt("", hay, 0);
  }

  /** Pair `i` is the first with an empty value, and its label is `name`. */
  predicate FirstEmptyAt(fields: seq<(string, string)>, i: nat, name: string)
    requires i < |fields|
  {
    fields[i] == (name, "") && forall j :: 0 <= j < i ==> fields[j].1 != ""
  }

  /** The label of the first (label, value) pair whose value is empty, as the
      forms check their required fields in order; None when all are filled. */
  function FirstEmpty(fields: seq<(string, string)>): (r: Option<string>)
    ensures r.None? <==> forall i :: 0 <= i < |fields| ==> fields[i].1 != ""
    ensures r.Some? ==> exists i :: 0 <= i < |fields| && FirstEmptyAt(fields, i, r.value)
  {
    if fields == [] then None
    else if fields[0].1 == "" then
      assert FirstEmptyAt(fields, 0, fields[0].0);
      Some(fields[0].0)
    else
      var r := FirstEmpty(fields[1..]);
      assert r.Some? ==> exists i :: 1 <= i < |fields| && FirstEmptyAt(fields, i, r.value) by {
        if r.Some? {
          var i :| 0 <= i < |fields[1..]| && FirstEmptyAt(fields[1..], i, r.value);
          assert fields[i + 1] == (r.value, "");
          assert forall j :: 1 <= j < i + 1 ==> fields[j].1 != "" by {
            forall j | 1 <= j < i + 1 ensures fields[j].1 != "" {
              assert fields[j] == fields[1..][j - 1];
            }
          }
          assert FirstEmptyAt(fields, i + 1, r.value);
        }
      }
      r
  }
}
