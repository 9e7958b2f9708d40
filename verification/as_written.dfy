/**
 The routine as the program writes it. The confidence limits are bound only
 on the path that consults the solver, yet they are returned on every path:
 when limits are not requested, or when there is no power to bound, the
 program ends by reading unbound variables and raises instead of returning.
 */
module AsWritten {
  import opened Numbers
  import opened Diagnostics
  import opened Distributions
  import opened HltPower
  import HltProperties

  /**
   How the routine ends: it returns an outcome, or raises on reading an unbound
   local variable, after the warnings and collaborator calls already made.
   */
  datatype Completion =
    | Returns(outcome: Outcome)
    | RaisesUnbound(variable: string, warnings: seq<Warning>, calls: seq<Call>)

  /** The routine with its return statement as written. */
  function HltAsWritten(x: Input, o: Oracles): (r: Completion)
    requires Valid(x)
    ensures r.Returns? <==> x.clType >= 1 && Hlt(x, o).power.Real?
    ensures r.Returns? ==> r.outcome == Hlt(x, o)
    // the raise discards no warning and undoes no call made before it
    ensures r.RaisesUnbound? ==> r.variable == "power_l" && r.warnings == Hlt(x, o).warnings && r.calls == Hlt(x, o).calls
  {
    var e := Evaluate(x, o);
    var c := ConfidenceLimits(x, e, o);
    if c.Solved? then Returns(Assemble(e, c, EvaluationCalls(x, e) + LimitsCalls(c)))
    else RaisesUnbound("power_l", EvaluationWarnings(e) + LimitsWarnings(c), EvaluationCalls(x, e) + LimitsCalls(c))
  }

  /** Limits not requested: the routine as written never returns, while the corrected one returns missing limits. */
  lemma NotRequestedRaises(x: Input, o: Oracles)
    requires Valid(x) && x.clType < 1
    ensures HltAsWritten(x, o).RaisesUnbound?
    ensures Hlt(x, o).powerL == NaN && Hlt(x, o).powerU == NaN
  {
  }

  /** Without limits, ranks 2, 3, 4, N = 20, eigenvalues 0.5 and 0.2, alpha 0.05, code 2: the routine as written raises for every collaborator. */
  lemma TwentySubjectsWithoutLimitsRaises(o: Oracles)
    ensures var x := Input(2, 3, 4, 20, [Real(0.5), Real(0.2)], 0.05, [2, 2, 2], 0, 0, 0, 0.025, 0.975, 0.000001);
      && Valid(x)
      && HltAsWritten(x, o).RaisesUnbound? && HltAsWritten(x, o).variable == "power_l"
      && |HltAsWritten(x, o).calls| == 2 && |HltAsWritten(x, o).warnings| == 1
      && Hlt(x, o).powerL == NaN && Hlt(x, o).powerU == NaN
      && Hlt(x, o).power.NaN? == o.probf(o.finv(0.95, 6, 17.0), 6, 17.0, OmegaOf(x)).prob.NaN?
  {
    var x := Input(2, 3, 4, 20, [Real(0.5), Real(0.2)], 0.05, [2, 2, 2], 0, 0, 0, 0.025, 0.975, 0.000001);
    HltProperties.TwentySubjectsDf2();
    assert Df2Of(x) == 17.0;
    assert !NotComputable(Df2Of(x), x.eigenvalues);
  }
}
