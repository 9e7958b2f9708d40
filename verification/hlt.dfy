/**
 Power of the Hotelling-Lawley trace test under the Pillai / McKeon F
 approximations: the degrees of freedom, the degenerate-case guard, the
 noncentrality, the power with its floor rule, and the gate in front of the
 confidence-limit solver.

 This is the corrected routine: where the program would end with unbound
 confidence limits it returns the missing value for them (see module AsWritten).
 */
module HltPower {
  import opened Numbers
  import opened Diagnostics
  import opened Distributions

  /** The parameters of one power computation, in the program's order (the warning accumulator becomes part of the result). */
  datatype Input = Input(
    rankC: int, rankU: int, rankX: int, totalN: int,
    eigenvalues: seq<Num>, alpha: real, mMethod: seq<int>,
    clType: int, nEst: int, rankEst: int, alphaCl: real, alphaCu: real, tolerance: real)

  /** The lower limit, the power and the upper limit, with the warnings recorded and the collaborators consulted. */
  datatype Outcome = Outcome(powerL: Num, power: Num, powerU: Num, warnings: seq<Warning>, calls: seq<Call>)

  // Hotelling-Lawley method codes (slot 0 of the method selector):
  //   1 Pillai one-moment null approximation, 2 McKeon two-moment null approximation,
  //   3 and 4 the same two with the OS noncentrality multiplier.

  predicate MethodCode(code: int) { 1 <= code <= 4 }

  /** Codes 1 and 3 use the one-moment error degrees of freedom. */
  predicate OneMoment(code: int) { code == 1 || code == 3 }

  /** Codes 3 and 4 apply the OS noncentrality multiplier. */
  predicate OsMultiplier(code: int) { code > 2 }

  function MinRank(rankC: int, rankU: int): int
  {
    if rankC <= rankU then rankC else rankU
  }

  /** Hypothesis degrees of freedom. */
  function Df1(rankC: int, rankU: int): int
  {
    rankC * rankU
  }

  /** Numerator of the two-moment error degrees of freedom; `m` is total N minus rank X. */
  function Df2Numerator(rankU: int, m: int): int
  {
    m * m - m * (2 * rankU + 3) + rankU * (rankU + 3)
  }

  /** Denominator of the two-moment error degrees of freedom; `m` is total N minus rank X. */
  function Df2Denominator(rankC: int, rankU: int, m: int): int
  {
    m * (rankC + rankU + 1) - (rankC + 2 * rankU + rankU * rankU - 1)
  }

  /** Error degrees of freedom; undefined for codes outside 1..4 and for a zero two-moment denominator. */
  function Df2(code: int, rankC: int, rankU: int, rankX: int, totalN: int): (df2: real)
    requires MethodCode(code)
    requires !OneMoment(code) ==> Df2Denominator(rankC, rankU, totalN - rankX) != 0
    // the one-moment form is a whole number
    ensures OneMoment(code) ==> df2 == df2.Floor as real
  {
    if OneMoment(code) then
      (MinRank(rankC, rankU) * (totalN - rankX - rankU - 1) + 2) as real
    else
      var nu := Df2Numerator(rankU, totalN - rankX) as real;
      var de := Df2Denominator(rankC, rankU, totalN - rankX) as real;
      4.0 + (Df1(rankC, rankU) + 2) as real * (nu / de)
  }

  /**
   The degenerate case: no positive error degrees of freedom, or a missing first
   eigenvalue. The test short-circuits, so the eigenvalues are read only when df2
   is positive, and then only the first one.
   */
  predicate NotComputable(df2: real, eigenvalues: seq<Num>)
    requires df2 > 0.0 ==> |eigenvalues| > 0
  {
    df2 <= 0.0 || eigenvalues[0].NaN?
  }

  /** What every eigenvalue is multiplied by to give its noncentrality entry. */
  function OmegaFactor(os: bool, totalN: int, rankX: int, minRank: int, df2: real): real
    requires minRank != 0
  {
    if os then (totalN - rankX) as real else df2 / minRank as real
  }

  /** The noncentrality entry of one eigenvalue, as the program computes it. */
  function OmegaEntry(os: bool, e: Num, totalN: int, rankX: int, minRank: int, df2: real): (w: Num)
    requires totalN != 0 && minRank != 0
    ensures w == Times(e, OmegaFactor(os, totalN, rankX, minRank, df2))
  {
    match e
    case NaN => NaN
    case Real(x) =>
      if os then
        var n := totalN as real;
        var k := minRank as real;
        var h := x * (totalN - rankX) as real / n;
        assert h * n == x * (totalN - rankX) as real;
        assert (n * k) * (h / k) == h * n;
        assert (totalN * minRank) as real == n * k;
        var entry := (totalN * minRank) as real * (h / k);
        assert entry == x * OmegaFactor(os, totalN, rankX, minRank, df2);
        assert Times(e, OmegaFactor(os, totalN, rankX, minRank, df2)) == Real(entry);
        Real(entry)
      else
        var k := minRank as real;
        assert df2 * (x / k) == x * (df2 / k);
        assert Times(e, OmegaFactor(os, totalN, rankX, minRank, df2)) == Real(x * (df2 / k));
        Real(df2 * (x / k))
  }

  /** The noncentrality, element by element over the eigenvalues; the program never sums it. */
  function Omega(os: bool, eigenvalues: seq<Num>, totalN: int, rankX: int, minRank: int, df2: real): (omega: seq<Num>)
    requires totalN != 0 && minRank != 0
    ensures |omega| == |eigenvalues|
    ensures forall i :: 0 <= i < |eigenvalues| ==>
      omega[i] == Times(eigenvalues[i], OmegaFactor(os, totalN, rankX, minRank, df2))
  {
    if |eigenvalues| == 0 then []
    else [OmegaEntry(os, eigenvalues[0], totalN, rankX, minRank, df2)]
         + Omega(os, eigenvalues[1..], totalN, rankX, minRank, df2)
  }

  /** Power from the probability the F probability function returned, with the floor rule for an exhausted fallback. */
  function Power(fmethod: int, prob: Num, alpha: real): (power: Num)
    ensures power.NaN? <==> prob.NaN?
    ensures fmethod == ExhaustedFallback && prob == Real(1.0) ==> power == Real(alpha)
    ensures prob.Real? && !(fmethod == ExhaustedFallback && prob.v == 1.0) ==> power.v + prob.v == 1.0
    ensures prob.Real? && 0.0 <= prob.v <= 1.0 && 0.0 < alpha < 1.0 ==> 0.0 <= power.v <= 1.0
  {
    if fmethod == ExhaustedFallback && prob == Real(1.0) then Real(alpha)
    else match prob
      case NaN => NaN
      case Real(p) => Real(1.0 - p)
  }

  /**
   What the model needs of its caller: a method code the routine knows, a first
   eigenvalue whenever the guard reads one, and no division by zero.
   */
  predicate Valid(x: Input)
  {
    && |x.mMethod| > 0 && MethodCode(x.mMethod[0])
    && (!OneMoment(x.mMethod[0]) ==> Df2Denominator(x.rankC, x.rankU, x.totalN - x.rankX) != 0)
    && (Df2(x.mMethod[0], x.rankC, x.rankU, x.rankX, x.totalN) > 0.0 ==> |x.eigenvalues| > 0)
    && x.rankC != 0 && x.rankU != 0 && x.totalN != 0
  }

  function Df2Of(x: Input): real
    requires Valid(x)
  {
    Df2(x.mMethod[0], x.rankC, x.rankU, x.rankX, x.totalN)
  }

  /** Whether the noncentrality takes the OS-multiplier form: codes 3 and 4, or a minimum rank of one. */
  predicate OsForm(x: Input)
    requires Valid(x)
  {
    OsMultiplier(x.mMethod[0]) || MinRank(x.rankC, x.rankU) == 1
  }

  function OmegaOf(x: Input): seq<Num>
    requires Valid(x)
  {
    Omega(OsForm(x), x.eigenvalues, x.totalN, x.rankX, MinRank(x.rankC, x.rankU), Df2Of(x))
  }

  /** The point estimate of power: skipped in the degenerate case, otherwise from the two F collaborators. */
  datatype Evaluation =
    | Degenerate
    | Evaluated(omega: seq<Num>, fcrit: Num, prob: Num, fmethod: int, power: Num)

  function Evaluate(x: Input, o: Oracles): (e: Evaluation)
    requires Valid(x)
    ensures e.Degenerate? <==> NotComputable(Df2Of(x), x.eigenvalues)
    ensures e.Evaluated? ==>
      && e.omega == OmegaOf(x)
      && e.fcrit == o.finv(1.0 - x.alpha, Df1(x.rankC, x.rankU), Df2Of(x))
      && o.probf(e.fcrit, Df1(x.rankC, x.rankU), Df2Of(x), e.omega) == ProbResult(e.prob, e.fmethod)
      && e.power == Power(e.fmethod, e.prob, x.alpha)
  {
    var df1 := Df1(x.rankC, x.rankU);
    var df2 := Df2Of(x);
    if NotComputable(df2, x.eigenvalues) then Degenerate
    else
      var omega := OmegaOf(x);
      var fcrit := o.finv(1.0 - x.alpha, df1, df2);
      var r := o.probf(fcrit, df1, df2, omega);
      Evaluated(omega, fcrit, r.prob, r.fmethod, Power(r.fmethod, r.prob, x.alpha))
  }

  function PointPower(e: Evaluation): Num
  {
    if e.Degenerate? then NaN else e.power
  }

  /** The confidence-limit stage: not requested, refused for want of a power, or handed to the solver. */
  datatype Limits =
    | NotRequested
    | PowerMissing
    | Solved(args: LimitArgs, result: LimitResult)

  function ConfidenceLimits(x: Input, e: Evaluation, o: Oracles): (c: Limits)
    requires Valid(x)
    requires e.Evaluated? ==> |e.omega| == |x.eigenvalues|
    ensures c.NotRequested? <==> x.clType < 1
    ensures c.PowerMissing? <==> x.clType >= 1 && PointPower(e).NaN?
    ensures c.Solved? ==>
      && e.Evaluated? && c.result == o.glmmpcl(c.args)
      && c.args == LimitArgs(c.args.fA, x.alpha, Df1(x.rankC, x.rankU), x.totalN, Df2Of(x),
                             x.clType, x.nEst, x.rankEst, x.alphaCl, x.alphaCu, x.tolerance)
      && DividedBy(c.args.fA, e.omega, Df1(x.rankC, x.rankU) as real)
  {
    if x.clType < 1 then NotRequested
    else if PointPower(e).NaN? then PowerMissing
    else
      var df1 := Df1(x.rankC, x.rankU);
      assert df1 != 0;
      var args := LimitArgs(DivideAll(e.omega, df1 as real), x.alpha, df1, x.totalN, Df2Of(x),
                            x.clType, x.nEst, x.rankEst, x.alphaCl, x.alphaCu, x.tolerance);
      Solved(args, o.glmmpcl(args))
  }

  function EvaluationWarnings(e: Evaluation): seq<Warning>
  {
    if e.Degenerate? then [Direct(NotComputableCode)] else [FMethod(e.fmethod, HotellingLawleyTag)]
  }

  function EvaluationCalls(x: Input, e: Evaluation): seq<Call>
    requires Valid(x)
  {
    if e.Degenerate? then []
    else [FinvCall(1.0 - x.alpha, Df1(x.rankC, x.rankU), Df2Of(x)),
          ProbfCall(e.fcrit, Df1(x.rankC, x.rankU), Df2Of(x), e.omega)]
  }

  function LimitsWarnings(c: Limits): seq<Warning>
  {
    match c
    case NotRequested => []
    case PowerMissing => [Direct(NoPowerForLimitsCode)]
    case Solved(_, r) => r.warnings
  }

  function LimitsCalls(c: Limits): seq<Call>
  {
    if c.Solved? then [SolverCall(c.args)] else []
  }

  /** Assembles the outcome; limits that were never computed are the missing value. */
  function Assemble(e: Evaluation, c: Limits, calls: seq<Call>): Outcome
  {
    var lower := if c.Solved? then c.result.powerL else NaN;
    var upper := if c.Solved? then c.result.powerU else NaN;
    Outcome(lower, PointPower(e), upper, EvaluationWarnings(e) + LimitsWarnings(c), calls)
  }

  /** Power, and confidence limits on power if requested, for the Hotelling-Lawley trace. */
  function Hlt(x: Input, o: Oracles): (r: Outcome)
    requires Valid(x)
    // the degenerate case: power missing, warning 15 alone, no collaborator consulted
    ensures NotComputable(Df2Of(x), x.eigenvalues) ==>
      && r.power == NaN && r.powerL == NaN && r.powerU == NaN && r.calls == []
      && r.warnings == [Direct(NotComputableCode)] + (if x.clType >= 1 then [Direct(NoPowerForLimitsCode)] else [])
    // the computable case: quantile first, then probability, then exactly one method warning of this statistic
    ensures !NotComputable(Df2Of(x), x.eigenvalues) ==>
      var fcrit := o.finv(1.0 - x.alpha, Df1(x.rankC, x.rankU), Df2Of(x));
      var pr := o.probf(fcrit, Df1(x.rankC, x.rankU), Df2Of(x), OmegaOf(x));
      && |r.calls| >= 2 && |r.warnings| >= 1
      && r.calls[..2] == [FinvCall(1.0 - x.alpha, Df1(x.rankC, x.rankU), Df2Of(x)),
                          ProbfCall(fcrit, Df1(x.rankC, x.rankU), Df2Of(x), OmegaOf(x))]
      && r.warnings[0] == FMethod(pr.fmethod, HotellingLawleyTag)
      && r.power == Power(pr.fmethod, pr.prob, x.alpha)
      // without the solver, these two calls and this one warning are all there is
      && (x.clType < 1 ==> r.calls == r.calls[..2] && r.warnings == [r.warnings[0]])
      && (x.clType >= 1 && r.power.NaN? ==>
            r.calls == r.calls[..2] && r.warnings == [r.warnings[0], Direct(NoPowerForLimitsCode)])
    // every collaborator is consulted with df1 = rank_C * rank_U, whatever the method code
    ensures forall c :: c in r.calls ==> c.CallDf1() == Df1(x.rankC, x.rankU)
    // limits are not requested: both are missing and the solver is never consulted
    ensures x.clType < 1 ==> r.powerL == NaN && r.powerU == NaN && |r.calls| <= 2
  {
    var e := Evaluate(x, o);
    var c := ConfidenceLimits(x, e, o);
    Assemble(e, c, EvaluationCalls(x, e) + LimitsCalls(c))
  }
}
