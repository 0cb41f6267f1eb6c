/**
 * Decimal number text, as produced by the scanner for Number tokens:
 * one or more digits, optionally followed by a '.' and one or more digits.
 *
 * The source keeps a Number literal as an f64 obtained by parsing that text,
 * and renders it with f64's `Display`.  This module keeps the text itself and
 * models the rendering as the canonical decimal form of the same value: no
 * redundant leading zeros in the integer part, no trailing zeros in the
 * fraction, and no '.' when the fraction vanishes.  The value a text denotes
 * is the rational Num / 10^Scale; Display is proved to keep that value.
 */
module Decimal {

  predicate IsDigit(c: char) {
    '0' <= c <= '9'
  }

  predicate AllDigits(s: string) {
    forall i :: 0 <= i < |s| ==> IsDigit(s[i])
  }

  /** Index of the first '.' in s, or |s| when there is none. */
  function DotIndex(s: string): (i: nat)
    ensures i <= |s|
    ensures i < |s| ==> s[i] == '.'
    ensures forall k :: 0 <= k < i ==> s[k] != '.'
  {
    if s == [] || s[0] == '.' then 0 else 1 + DotIndex(s[1..])
  }

  /** digits ( '.' digits )? */
  predicate IsNumberText(s: string) {
    var d := DotIndex(s);
    0 < d && AllDigits(s[..d]) && (d == |s| || (d + 1 < |s| && AllDigits(s[d + 1..])))
  }

  type NumberText = s: string | IsNumberText(s) witness "0"

  function IntPart(s: NumberText): (r: string)
    ensures |r| > 0 && AllDigits(r)
  {
    s[..DotIndex(s)]
  }

  function FracPart(s: NumberText): (r: string)
    ensures AllDigits(r)
    ensures DotIndex(s) < |s| <==> r != ""
  {
    if DotIndex(s) < |s| then s[DotIndex(s) + 1..] else ""
  }

  lemma {:induction false} PartsMakeText(s: NumberText)
    ensures s == if FracPart(s) == "" then IntPart(s) else IntPart(s) + "." + FracPart(s)
  {
    var d := DotIndex(s);
    if d < |s| {
      assert s == s[..d] + [s[d]] + s[d + 1..];
    } else {
      assert s[..d] == s;
    }
  }

  function DigitValue(c: char): nat
    requires IsDigit(c)
  {
    (c as int - '0' as int) as nat
  }

  /** The natural number written by a digit string (0 for the empty string). */
  function DigitsValue(d: string): nat
    requires AllDigits(d)
  {
    if d == [] then 0 else 10 * DigitsValue(d[..|d| - 1]) + DigitValue(d[|d| - 1])
  }

  function Pow10(k: nat): (p: nat)
    ensures p >= 1
  {
    if k == 0 then 1 else 10 * Pow10(k - 1)
  }

  /** A number text denotes Num(s) / 10^Scale(s). */
  function Num(s: NumberText): nat {
    DigitsValue(IntPart(s) + FracPart(s))
  }

  function Scale(s: NumberText): nat {
    |FracPart(s)|
  }

  predicate SameValue(a: NumberText, b: NumberText) {
    Num(a) * Pow10(Scale(b)) == Num(b) * Pow10(Scale(a))
  }

  /** The form f64's Display gives: the integer part keeps no leading zeros but one,
      the fraction keeps no trailing zeros, and an empty fraction drops the '.'. */
  predicate IsCanonical(s: NumberText) {
    var i, f := IntPart(s), FracPart(s);
    (i[0] == '0' ==> |i| == 1) && (f != "" ==> f[|f| - 1] != '0')
  }

  function TrimLeadingZeros(d: string): (r: string)
    requires |d| > 0 && AllDigits(d)
    ensures |r| > 0 && AllDigits(r) && (r[0] == '0' ==> |r| == 1)
    ensures |r| <= |d| && r == d[|d| - |r|..]
  {
    if |d| > 1 && d[0] == '0' then TrimLeadingZeros(d[1..]) else d
  }

  function TrimTrailingZeros(f: string): (r: string)
    requires AllDigits(f)
    ensures AllDigits(r) && (r != "" ==> r[|r| - 1] != '0')
    ensures |r| <= |f| && r == f[..|r|]
  {
    if |f| > 0 && f[|f| - 1] == '0' then TrimTrailingZeros(f[..|f| - 1]) else f
  }

  lemma {:induction false} DotIndexAt(s: string, k: nat)
    requires k <= |s| && (k == |s| || s[k] == '.')
    requires forall j :: 0 <= j < k ==> s[j] != '.'
    ensures DotIndex(s) == k
    decreases k
  {
    if k > 0 {
      DotIndexAt(s[1..], k - 1);
    }
  }

  function Join(i: string, f: string): (s: string)
    requires |i| > 0 && AllDigits(i) && AllDigits(f)
    ensures IsNumberText(s)
    ensures IntPart(s) == i && FracPart(s) == f
  {
    var s := if f == "" then i else i + "." + f;
    assert s[..|i|] == i;
    DotIndexAt(s, |i|);
    assert f != "" ==> s[|i| + 1..] == f;
    s
  }

  /** f64 Display of the value a number text denotes. */
  function Display(s: NumberText): (r: string)
  {
    Join(TrimLeadingZeros(IntPart(s)), TrimTrailingZeros(FracPart(s)))
  }

  lemma {:induction false} AllDigitsAppend(a: string, b: string)
    requires AllDigits(a) && AllDigits(b)
    ensures AllDigits(a + b)
  {
    forall k | 0 <= k < |a + b| ensures IsDigit((a + b)[k]) {
      if k < |a| { assert (a + b)[k] == a[k]; } else { assert (a + b)[k] == b[k - |a|]; }
    }
  }

  lemma ShiftStep(x: nat, p: nat, y: nat, d: nat)
    ensures 10 * (x * p + y) + d == x * (10 * p) + (10 * y + d)
  {
  }

  lemma {:induction false} DigitsValueAppend(a: string, b: string)
    requires AllDigits(a) && AllDigits(b)
    ensures AllDigits(a + b)
    ensures DigitsValue(a + b) == DigitsValue(a) * Pow10(|b|) + DigitsValue(b)
    decreases |b|
  {
    AllDigitsAppend(a, b);
    if b == [] {
      assert a + b == a;
    } else {
      var b' := b[..|b| - 1];
      assert (a + b)[..|a + b| - 1] == a + b';
      assert (a + b)[|a + b| - 1] == b[|b| - 1];
      DigitsValueAppend(a, b');
      ShiftStep(DigitsValue(a), Pow10(|b'|), DigitsValue(b'), DigitValue(b[|b| - 1]));
    }
  }

  lemma {:induction false} TrimLeadingZerosValue(d: string)
    requires |d| > 0 && AllDigits(d)
    ensures DigitsValue(TrimLeadingZeros(d)) == DigitsValue(d)
    decreases |d|
  {
    if |d| > 1 && d[0] == '0' {
      assert d == "0" + d[1..];
      LeadingZero(d[1..]);
      TrimLeadingZerosValue(d[1..]);
    }
  }

  lemma {:induction false} LeadingZero(d: string)
    requires AllDigits(d)
    ensures AllDigits("0" + d) && DigitsValue("0" + d) == DigitsValue(d)
  {
    assert DigitsValue("0") == 0 by {
      assert "0"[..0] == [];
    }
    DigitsValueAppend("0", d);
  }

  lemma {:induction false} TrimTrailingZerosValue(f: string)
    requires AllDigits(f)
    ensures DigitsValue(f) == DigitsValue(TrimTrailingZeros(f)) * Pow10(|f| - |TrimTrailingZeros(f)|)
    decreases |f|
  {
    if |f| > 0 && f[|f| - 1] == '0' {
      var f' := f[..|f| - 1];
      TrimTrailingZerosValue(f');
      var t := TrimTrailingZeros(f');
      assert TrimTrailingZeros(f) == t;
      assert DigitsValue(f) == 10 * DigitsValue(f');
      assert Pow10(|f| - |t|) == 10 * Pow10(|f'| - |t|);
      ShiftTen(DigitsValue(t), Pow10(|f'| - |t|));
    }
  }

  lemma ShiftTen(a: nat, p: nat)
    ensures 10 * (a * p) == a * (10 * p)
  {
  }

  /** Display keeps the value: the f64 the source prints is the f64 it parsed. */
  lemma {:induction false} DisplayKeepsValue(s: NumberText)
    ensures SameValue(Display(s), s)
  {
    var c := Display(s);
    var i, f := IntPart(s), FracPart(s);
    var n := |f| - |FracPart(c)|;
    assert IntPart(c) == TrimLeadingZeros(i) && FracPart(c) == TrimTrailingZeros(f);
    NumSplit(s);
    NumSplit(c);
    assert DigitsValue(IntPart(c)) == DigitsValue(i) by {
      TrimLeadingZerosValue(i);
    }
    assert DigitsValue(f) == DigitsValue(FracPart(c)) * Pow10(n) by {
      TrimTrailingZerosValue(f);
    }
    assert Pow10(|f|) == Pow10(|FracPart(c)|) * Pow10(n) by {
      PowAdd(|FracPart(c)|, n);
      assert |FracPart(c)| + n == |f|;
    }
    Rescale(Num(c), Num(s), DigitsValue(i), DigitsValue(IntPart(c)), DigitsValue(f), DigitsValue(FracPart(c)),
            Pow10(|f|), Pow10(|FracPart(c)|), Pow10(n));
  }

  /** The value of number text, from the values of its two parts. */
  lemma {:induction false} NumSplit(s: NumberText)
    ensures Num(s) == DigitsValue(IntPart(s)) * Pow10(|FracPart(s)|) + DigitsValue(FracPart(s))
  {
    DigitsValueAppend(IntPart(s), FracPart(s));
  }

  /** Scaling a value's two parts by the same power of ten leaves the
      value-to-scale ratio unchanged. */
  lemma Rescale(nc: int, ns: int, vi: int, vi': int, vf: int, vf': int, p: int, p': int, q: int)
    requires nc == vi' * p' + vf'
    requires ns == vi * p + vf
    requires vi' == vi && p == p' * q && vf == vf' * q
    ensures nc * p == ns * p'
  {
    calc {
      nc * p;
      (vi * p' + vf') * (p' * q);
      (vi * p' * q + vf' * q) * p';
      ns * p';
    }
  }

  lemma {:induction false} PowAdd(a: nat, b: nat)
    ensures Pow10(a + b) == Pow10(a) * Pow10(b)
    decreases a
  {
    if a > 0 {
      PowAdd(a - 1, b);
    }
  }

  /** Display always yields the canonical form. */
  lemma {:induction false} DisplayIsCanonical(s: NumberText)
    ensures IsNumberText(Display(s)) && IsCanonical(Display(s))
  {
  }

  /** A canonical text is displayed as itself; in particular Display is idempotent. */
  lemma {:induction false} DisplayOfCanonical(s: NumberText)
    requires IsCanonical(s)
    ensures Display(s) == s
  {
    var i, f := IntPart(s), FracPart(s);
    assert TrimLeadingZeros(i) == i;
    assert TrimTrailingZeros(f) == f;
    PartsMakeText(s);
  }

  lemma {:induction false} DisplayIdempotent(s: NumberText)
    ensures Display(Display(s)) == Display(s)
  {
    DisplayOfCanonical(Display(s));
  }
}
