/**
 The calculation-state warnings. The program threads one mutable warning
 accumulator through the computation; here every step instead returns the
 warnings it records, in order, and the caller concatenates them.
 */
module Diagnostics {

  /** One recorded warning. */
  datatype Warning =
      /** A warning recorded unconditionally under its code (the accumulator's direct recording). */
    | Direct(code: int)
      /** The F-distribution method that actually ran, tagged by the statistic that asked for it. */
    | FMethod(fmethod: int, statistic: int)

  /** The error degrees of freedom are not positive, or the first eigenvalue is missing. */
  const NotComputableCode := 15

  /** Confidence limits were requested but there is no power to bound. */
  const NoPowerForLimitsCode := 16

  /** The statistic tag of the Hotelling-Lawley trace. */
  const HotellingLawleyTag := 1
}
