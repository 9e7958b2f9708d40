/**
 Properties of the Hotelling-Lawley power computation that relate several
 calls, or relate the routine to an independent statement of its formulas.
 */
module HltProperties {
  import opened Numbers
  import opened Diagnostics
  import opened Distributions
  import opened HltPower

  /** Both closed forms of the error degrees of freedom, the two-moment numerator written in factored form. */
  lemma Df2ClosedForms(code: int, rankC: int, rankU: int, rankX: int, totalN: int)
    requires MethodCode(code)
    requires !OneMoment(code) ==> Df2Denominator(rankC, rankU, totalN - rankX) != 0
    ensures OneMoment(code) ==>
      Df2(code, rankC, rankU, rankX, totalN) == (MinRank(rankC, rankU) * (totalN - rankX - rankU - 1) + 2) as real
    ensures !OneMoment(code) ==>
      var m := totalN - rankX;
      Df2(code, rankC, rankU, rankX, totalN)
      == 4.0 + (rankC * rankU + 2) as real
               * (((m - rankU) * (m - rankU - 3)) as real / Df2Denominator(rankC, rankU, m) as real)
  {
    if !OneMoment(code) {
      var m := totalN - rankX;
      Df2NumeratorFactors(rankU, m);
      assert Df2Numerator(rankU, m) as real == ((m - rankU) * (m - rankU - 3)) as real;
      assert Df1(rankC, rankU) == rankC * rankU;
    }
  }

  /** The two-moment numerator factors as (m - rank U)(m - rank U - 3). */
  lemma Df2NumeratorFactors(rankU: int, m: int)
    ensures Df2Numerator(rankU, m) == (m - rankU) * (m - rankU - 3)
  {
  }

  /** Codes 1 and 3, and codes 2 and 4, give the same error degrees of freedom: the OS multiplier does not touch df2. */
  lemma Df2IgnoresOsMultiplier(rankC: int, rankU: int, rankX: int, totalN: int)
    ensures Df2(1, rankC, rankU, rankX, totalN) == Df2(3, rankC, rankU, rankX, totalN)
    ensures Df2Denominator(rankC, rankU, totalN - rankX) != 0 ==>
      Df2(2, rankC, rankU, rankX, totalN) == Df2(4, rankC, rankU, rankX, totalN)
  {
  }

  /**
   With positive ranks, the one-moment df2 is positive exactly when
   N - rank X - rank U - 1 is at least 0, or is -1 with a minimum rank of one.
   */
  lemma Df2OneMomentPositiveIff(code: int, rankC: int, rankU: int, rankX: int, totalN: int)
    requires OneMoment(code) && rankC >= 1 && rankU >= 1
    ensures Df2(code, rankC, rankU, rankX, totalN) > 0.0
            <==> (totalN - rankX - rankU - 1 >= 0
                  || (MinRank(rankC, rankU) == 1 && totalN - rankX - rankU - 1 == -1))
  {
    var k := totalN - rankX - rankU - 1;
    var r := MinRank(rankC, rankU);
    assert r >= 1;
    if k >= 0 {
      assert r * k >= 0;
    } else if k == -1 {
      assert r * k == -r;
    } else {
      assert r * k <= r * -2 by {
        assert r * (k + 2) <= 0;
      }
    }
  }

  /** With positive ranks and N - rank X - rank U - 1 > 0, the two-moment denominator is positive. */
  lemma Df2DenominatorPositive(rankC: int, rankU: int, rankX: int, totalN: int)
    requires rankC >= 1 && rankU >= 1 && totalN - rankX - rankU - 1 > 0
    ensures Df2Denominator(rankC, rankU, totalN - rankX) > 0
  {
    var m := totalN - rankX;
    var s := rankC + rankU + 1;
    var d := m - (rankU + 2);
    assert d >= 0 && s > 0;
    assert d * s >= 0;
    assert m * s == d * s + (rankU + 2) * s;
    assert (rankU + 2) * s == rankU * rankC + rankU * rankU + 3 * rankU + 2 * rankC + 2;
    assert Df2Denominator(rankC, rankU, m) == m * s - (rankC + 2 * rankU + rankU * rankU - 1);
  }

  /**
   With positive ranks and N - rank X - rank U - 1 > 0, every method code yields
   positive error degrees of freedom, so there the degenerate guard is reached
   only through a missing first eigenvalue.
   */
  lemma Df2PositiveBeyondRanks(code: int, rankC: int, rankU: int, rankX: int, totalN: int)
    requires MethodCode(code) && rankC >= 1 && rankU >= 1 && totalN - rankX - rankU - 1 > 0
    ensures !OneMoment(code) ==> Df2Denominator(rankC, rankU, totalN - rankX) != 0
    ensures Df2(code, rankC, rankU, rankX, totalN) > 0.0
  {
    Df2DenominatorPositive(rankC, rankU, rankX, totalN);
    if OneMoment(code) {
      Df2OneMomentPositiveIff(code, rankC, rankU, rankX, totalN);
    } else {
      var m := totalN - rankX;
      var c := rankC * rankU + 2;
      assert c > 2 by {
        assert rankC * rankU >= 1;
      }
      TwoMomentNumeratorCases(rankC, rankU, m);
      TwoMomentPositive(Df2Numerator(rankU, m) as real, Df2Denominator(rankC, rankU, m) as real, c as real);
    }
  }

  /** With positive ranks and m - rank U - 1 > 0, the two-moment numerator is non-negative, except for the one value -2 when m = rank U + 2. */
  lemma TwoMomentNumeratorCases(rankC: int, rankU: int, m: int)
    requires rankC >= 1 && rankU >= 1 && m - rankU - 1 > 0
    ensures Df2Numerator(rankU, m) >= 0
            || (Df2Numerator(rankU, m) == -2
                && Df2Denominator(rankC, rankU, m) == rankC * rankU + rankC + rankU + 3)
  {
    var a := m - rankU;
    Df2NumeratorFactors(rankU, m);
    if a >= 3 {
      assert a * (a - 3) >= 0;
    } else {
      assert a == 2 && m == rankU + 2;
      assert Df2Denominator(rankC, rankU, m)
             == (rankU + 2) * (rankC + rankU + 1) - (rankC + 2 * rankU + rankU * rankU - 1);
    }
  }

  /** 4 + k * (n / d) is positive when either n >= 0, or n = -2 and d exceeds k. */
  lemma TwoMomentPositive(n: real, d: real, k: real)
    requires k > 0.0 && d > 0.0
    requires n >= 0.0 || (n == -2.0 && d > k)
    ensures 4.0 + k * (n / d) > 0.0
  {
    if n >= 0.0 {
      ScaledQuotientNonNegative(k, d, n);
    } else {
      QuotientBelowOne(k, d);
      ScaledQuotientOfMinusTwo(k, d, n);
    }
  }

  /** A positive quotient with a smaller numerator is below one. */
  lemma QuotientBelowOne(k: real, d: real)
    requires 0.0 < k < d
    ensures k / d < 1.0
  {
    var r := k / d;
    assert r * d == k;
    assert 1.0 * d == d;
    ProductCancel(r, 1.0, d);
  }

  /** Cancelling a positive factor keeps a strict order. */
  lemma ProductCancel(a: real, b: real, d: real)
    requires d > 0.0 && a * d < b * d
    ensures a < b
  {
  }

  /** k * (-2 / d) is -2 times k / d. */
  lemma ScaledQuotientOfMinusTwo(k: real, d: real, n: real)
    requires d > 0.0 && n == -2.0
    ensures k * (n / d) == -2.0 * (k / d)
  {
  }

  /** A positive multiple of a non-negative quotient is non-negative. */
  lemma ScaledQuotientNonNegative(k: real, d: real, n: real)
    requires d > 0.0 && n >= 0.0 && k > 0.0
    ensures k * (n / d) >= 0.0
  {
    assert n / d >= 0.0;
  }

  /** Ranks 2, 3, 4 and N = 20 under a two-moment code give df2 = 17. */
  lemma TwentySubjectsDf2()
    ensures Df2(2, 2, 3, 4, 20) == 17.0 && Df2(4, 2, 3, 4, 20) == 17.0
  {
  }

  /** Ranks 2, 3, 4 with N = 7 under a one-moment code give df2 = 0: power is missing and warning 15 is recorded once. */
  lemma SmallSampleIsNotComputable(x: Input, o: Oracles)
    requires x.rankC == 2 && x.rankU == 3 && x.rankX == 4 && x.totalN == 7
    requires |x.mMethod| > 0 && OneMoment(x.mMethod[0])
    ensures Valid(x) && Df2Of(x) == 0.0
    ensures Hlt(x, o).power == NaN && Hlt(x, o).calls == []
    ensures multiset(Hlt(x, o).warnings)[Direct(NotComputableCode)] == 1
  {
  }

  /**
   The guard reads no eigenvalue once df2 is not positive, and reads only the
   first one otherwise: an empty eigenvalue array is accepted when df2 <= 0, and
   later eigenvalues never decide the case.
   */
  lemma NotComputableReadsFirstOnly(df2: real, e1: seq<Num>, e2: seq<Num>)
    requires df2 > 0.0 ==> |e1| > 0 && |e2| > 0
    ensures df2 <= 0.0 ==> NotComputable(df2, e1)
    ensures df2 > 0.0 ==> (NotComputable(df2, e1) <==> e1[0].NaN?)
    ensures df2 > 0.0 && e1[0] == e2[0] ==> (NotComputable(df2, e1) <==> NotComputable(df2, e2))
  {
  }

  /** In the degenerate case the outcome is the same whatever the collaborators are: none of them is consulted. */
  lemma DegenerateIgnoresCollaborators(x: Input, o1: Oracles, o2: Oracles)
    requires Valid(x) && NotComputable(Df2Of(x), x.eigenvalues)
    ensures Hlt(x, o1) == Hlt(x, o2)
  {
  }

  /** In the degenerate case warning 15 is recorded exactly once and no method warning is recorded. */
  lemma DegenerateWarnsOnce(x: Input, o: Oracles)
    requires Valid(x) && NotComputable(Df2Of(x), x.eigenvalues)
    ensures multiset(Hlt(x, o).warnings)[Direct(NotComputableCode)] == 1
    ensures forall w :: w in Hlt(x, o).warnings ==> w.Direct?
  {
  }

  /** Under the OS form each noncentrality entry is eigenvalue * (N - rank X), and a missing eigenvalue gives a missing entry. */
  lemma OmegaOsEntries(x: Input)
    requires Valid(x) && OsForm(x)
    ensures |OmegaOf(x)| == |x.eigenvalues|
    ensures forall i :: 0 <= i < |x.eigenvalues| && x.eigenvalues[i].Real? ==>
      OmegaOf(x)[i] == Real(x.eigenvalues[i].v * (x.totalN - x.rankX) as real)
    ensures forall i :: 0 <= i < |x.eigenvalues| ==> (OmegaOf(x)[i].NaN? <==> x.eigenvalues[i].NaN?)
  {
    var k := OmegaFactor(true, x.totalN, x.rankX, MinRank(x.rankC, x.rankU), Df2Of(x));
    assert k == (x.totalN - x.rankX) as real;
    forall i | 0 <= i < |x.eigenvalues|
      ensures OmegaOf(x)[i] == Times(x.eigenvalues[i], k)
    {
    }
  }

  /** Otherwise each entry is df2 * eigenvalue / min(rank C, rank U). */
  lemma OmegaPlainEntries(x: Input)
    requires Valid(x) && !OsForm(x)
    ensures |OmegaOf(x)| == |x.eigenvalues|
    ensures forall i :: 0 <= i < |x.eigenvalues| && x.eigenvalues[i].Real? ==>
      OmegaOf(x)[i] == Real(x.eigenvalues[i].v * (Df2Of(x) / MinRank(x.rankC, x.rankU) as real))
    ensures forall i :: 0 <= i < |x.eigenvalues| ==> (OmegaOf(x)[i].NaN? <==> x.eigenvalues[i].NaN?)
  {
    var k := OmegaFactor(false, x.totalN, x.rankX, MinRank(x.rankC, x.rankU), Df2Of(x));
    assert k == Df2Of(x) / MinRank(x.rankC, x.rankU) as real;
    forall i | 0 <= i < |x.eigenvalues|
      ensures OmegaOf(x)[i] == Times(x.eigenvalues[i], k)
    {
    }
  }

  /**
   Summing the per-eigenvalue noncentrality gives the scalar noncentrality of
   the summed eigenvalues: N * min-rank * (sum of hlt / min-rank) under the OS
   form, df2 * (sum of eigenvalues / min-rank) otherwise.
   */
  lemma OmegaSumsToScalar(x: Input)
    requires Valid(x)
    ensures Sum(OmegaOf(x)) == Times(Sum(x.eigenvalues),
      OmegaFactor(OsForm(x), x.totalN, x.rankX, MinRank(x.rankC, x.rankU), Df2Of(x)))
  {
    var k := OmegaFactor(OsForm(x), x.totalN, x.rankX, MinRank(x.rankC, x.rankU), Df2Of(x));
    SumTimes(x.eigenvalues, OmegaOf(x), k);
  }

  /** When the collaborator's probability lies in [0, 1] and alpha in (0, 1), a computable power lies in [0, 1]. */
  lemma PowerInUnitInterval(x: Input, o: Oracles)
    requires Valid(x) && !NotComputable(Df2Of(x), x.eigenvalues)
    requires ProbabilitiesInUnitInterval(o) && 0.0 < x.alpha < 1.0
    ensures Hlt(x, o).power.Real?
    ensures 0.0 <= Hlt(x, o).power.v <= 1.0
  {
    var df1 := Df1(x.rankC, x.rankU);
    var pr := o.probf(o.finv(1.0 - x.alpha, df1, Df2Of(x)), df1, Df2Of(x), OmegaOf(x));
    assert pr.prob.Real? && 0.0 <= pr.prob.v <= 1.0;
  }

  /**
   Limits requested but no power (the case is not computable, or the probability
   is missing, which is exactly when power is missing): warning 16 follows the point estimate's one
   warning and closes the record, the solver is not consulted, both limits are missing.
   */
  lemma LimitsNeedPower(x: Input, o: Oracles)
    requires Valid(x) && x.clType >= 1
    requires NotComputable(Df2Of(x), x.eigenvalues)
             || o.probf(o.finv(1.0 - x.alpha, Df1(x.rankC, x.rankU), Df2Of(x)),
                        Df1(x.rankC, x.rankU), Df2Of(x), OmegaOf(x)).prob.NaN?
    ensures Hlt(x, o).power.NaN?
    ensures var r := Hlt(x, o);
      && r.warnings == EvaluationWarnings(Evaluate(x, o)) + [Direct(NoPowerForLimitsCode)]
      && r.calls == EvaluationCalls(x, Evaluate(x, o))
      && multiset(r.warnings)[Direct(NoPowerForLimitsCode)] == 1
      && (forall c :: c in r.calls ==> !c.SolverCall?)
      && r.powerL == NaN && r.powerU == NaN
  {
    var e := Evaluate(x, o);
    var c := ConfidenceLimits(x, e, o);
    assert c.PowerMissing?;
    assert Hlt(x, o) == Assemble(e, c, EvaluationCalls(x, e));
  }

  /**
   Limits requested in a computable case whose probability is present, which is
   exactly when a power is present: the solver is consulted exactly once,
   after the two F collaborators, with f_a = omega / df1 and the routine's own
   df1, df2, N and alpha; its limits and its warnings are passed through.
   */
  lemma LimitsFromSolver(x: Input, o: Oracles)
    requires Valid(x) && x.clType >= 1 && !NotComputable(Df2Of(x), x.eigenvalues)
    requires o.probf(o.finv(1.0 - x.alpha, Df1(x.rankC, x.rankU), Df2Of(x)),
                     Df1(x.rankC, x.rankU), Df2Of(x), OmegaOf(x)).prob.Real?
    ensures Hlt(x, o).power.Real?
    ensures var r := Hlt(x, o);
      && |r.calls| == 3 && r.calls[..2] == EvaluationCalls(x, Evaluate(x, o)) && r.calls[2].SolverCall?
      && var a := r.calls[2].args;
      && a.df1 == Df1(x.rankC, x.rankU) && a.df2 == Df2Of(x) && a.totalN == x.totalN && a.alpha == x.alpha
      && a.clType == x.clType && a.nEst == x.nEst && a.rankEst == x.rankEst
      && a.alphaCl == x.alphaCl && a.alphaCu == x.alphaCu && a.tolerance == x.tolerance
      && |a.fA| == |x.eigenvalues|
      && (forall i :: 0 <= i < |a.fA| ==> (a.fA[i].NaN? <==> x.eigenvalues[i].NaN?))
      && DividedBy(a.fA, OmegaOf(x), Df1(x.rankC, x.rankU) as real)
      && r.powerL == o.glmmpcl(a).powerL && r.powerU == o.glmmpcl(a).powerU
      && r.warnings[1..] == o.glmmpcl(a).warnings
  {
    var e := Evaluate(x, o);
    assert e.Evaluated? && PointPower(e).Real?;
    var c := ConfidenceLimits(x, e, o);
    assert c.Solved? && c.args.fA == DivideAll(OmegaOf(x), Df1(x.rankC, x.rankU) as real);
    assert Hlt(x, o) == Assemble(e, c, EvaluationCalls(x, e) + [SolverCall(c.args)]);
  }
}
