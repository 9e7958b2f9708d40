/**
 The collaborators the power computation consults but does not define: the F
 quantile function, the (noncentral) F probability function and the
 confidence-limit solver. They are passed in as functions, and the model
 reports every consultation in a call trace.
 */
module Distributions {
  import opened Numbers
  import opened Diagnostics

  /** What the F probability function returns: a probability and the method it used. */
  datatype ProbResult = ProbResult(prob: Num, fmethod: int)

  /** The method code with which the F probability function reports that every fallback was exhausted. */
  const ExhaustedFallback := 4

  /** The arguments handed to the confidence-limit solver, in its parameter order. */
  datatype LimitArgs = LimitArgs(
    fA: seq<Num>, alpha: real, df1: int, totalN: int, df2: real, clType: int,
    nEst: int, rankEst: int, alphaCl: real, alphaCu: real, tolerance: real)

  /** What the confidence-limit solver returns, with the warnings it records. */
  datatype LimitResult = LimitResult(
    powerL: Num, powerU: Num, fmethodL: int, fmethodU: int,
    noncenL: Num, noncenU: Num, warnings: seq<Warning>)

  /** The three collaborators. */
  datatype Oracles = Oracles(
    finv: (real, int, real) -> Num,
    probf: (Num, int, real, seq<Num>) -> ProbResult,
    glmmpcl: LimitArgs -> LimitResult)

  /** One consultation of a collaborator, with its arguments. */
  datatype Call =
    | FinvCall(p: real, df1: int, df2: real)
    | ProbfCall(fcrit: Num, df1: int, df2: real, omega: seq<Num>)
    | SolverCall(args: LimitArgs)
  {
    /** The hypothesis degrees of freedom the call was made with. */
    function CallDf1(): int
    {
      match this
      case FinvCall(_, d, _) => d
      case ProbfCall(_, d, _, _) => d
      case SolverCall(a) => a.df1
    }
  }

  /** The F probability function only ever returns probabilities in [0, 1]. */
  ghost predicate ProbabilitiesInUnitInterval(o: Oracles)
  {
    forall x, d1, d2, w :: o.probf(x, d1, d2, w).prob.Real? && 0.0 <= o.probf(x, d1, d2, w).prob.v <= 1.0
  }
}
