/**
 The floating-point quantities of the power computation, modelled as exact reals
 together with the explicit missing-value signal (IEEE not-a-number in the program).
 Every operation here propagates the missing value the way element-wise array
 arithmetic does, so a missing value can never be silently absorbed.
 */
module Numbers {

  /** A real number, or the missing-value signal. */
  datatype Num = NaN | Real(v: real)

  /** `x * k`; a missing `x` stays missing. */
  function Times(x: Num, k: real): Num
  {
    match x
    case NaN => NaN
    case Real(a) => Real(a * k)
  }

  /** `x / d` for a non-zero divisor; a missing `x` stays missing. */
  function Over(x: Num, d: real): Num
    requires d != 0.0
  {
    match x
    case NaN => NaN
    case Real(a) => Real(a / d)
  }

  /** `x + y`; missing as soon as either operand is. */
  function Plus(x: Num, y: Num): Num
  {
    if x.NaN? || y.NaN? then NaN else Real(x.v + y.v)
  }

  /** The sum of an array, as an array reduction computes it: zero for the empty array. */
  function Sum(s: seq<Num>): Num
  {
    if |s| == 0 then Real(0.0) else Plus(s[0], Sum(s[1..]))
  }

  /**
   `f` is `s` divided by `d` element by element: the same length, missing
   exactly where `s` is, and each present entry times `d` gives back `s`'s.
   */
  predicate DividedBy(f: seq<Num>, s: seq<Num>, d: real)
  {
    && |f| == |s|
    && (forall i :: 0 <= i < |s| ==> (f[i].NaN? <==> s[i].NaN?))
    && (forall i :: 0 <= i < |s| && s[i].Real? ==> f[i].v * d == s[i].v)
  }

  /** Element-wise division of an array by a non-zero scalar. */
  function DivideAll(s: seq<Num>, d: real): (r: seq<Num>)
    requires d != 0.0
    ensures DividedBy(r, s, d)
  {
    seq(|s|, i requires 0 <= i < |s| => Over(s[i], d))
  }

  /** Scaling every term scales the sum. */
  lemma {:induction false} SumTimes(s: seq<Num>, t: seq<Num>, k: real)
    requires |t| == |s|
    requires forall i :: 0 <= i < |s| ==> t[i] == Times(s[i], k)
    ensures Sum(t) == Times(Sum(s), k)
  {
    if |s| > 0 {
      assert forall i :: 0 <= i < |s[1..]| ==> t[1..][i] == Times(s[1..][i], k);
      SumTimes(s[1..], t[1..], k);
      if s[0].Real? && Sum(s[1..]).Real? {
        assert (s[0].v + Sum(s[1..]).v) * k == s[0].v * k + Sum(s[1..]).v * k;
      }
    }
  }
}
