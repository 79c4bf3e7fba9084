/** Status codes and the fatal-status policy of src/ccl_error.c. */
module Errors {

  /** The nonzero codes that the modelled routines write into the caller's
      `int *status`. Their numeric values are defined in a header that is not
      part of this model, so they are named rather than numbered. `Other`
      stands for any further nonzero code (set by modules outside the model). */
  datatype ErrorCode =
    | Parameters    // CCL_ERROR_PARAMETERS
    | ComputeChi    // CCL_ERROR_COMPUTECHI
    | Linspace      // CCL_ERROR_LINSPACE
    | Memory        // CCL_ERROR_MEMORY
    | Spline        // CCL_ERROR_SPLINE
    | Integ         // CCL_ERROR_INTEG
    | Root          // CCL_ERROR_ROOT
    | HmfInterp     // CCL_ERROR_HMF_INTERP
    | Other

  /** The caller-owned status integer: `Ok` is 0, `Fail(c)` is the nonzero code c. */
  datatype Status = Ok | Fail(code: ErrorCode)

  /** What happens to control after a call: it returns to the caller, or the
      process ends with the given exit code. */
  datatype Control = Continue | Exit(exitCode: int)

  /** ccl_check_status: a zero status returns at once; every nonzero status
      (the four listed codes and the default case alike) prints the message
      and ends the process with exit code 1. The status itself is only read. */
  function CheckStatus(status: Status): (ctl: Control)
    ensures ctl.Continue? <==> status == Ok
    ensures ctl.Exit? ==> ctl == Exit(1)
  {
    match status
    case Ok => Continue
    case Fail(Linspace) => Exit(1)
    case Fail(Spline) => Exit(1)
    case Fail(ComputeChi) => Exit(1)
    case Fail(HmfInterp) => Exit(1)
    case Fail(_) => Exit(1)
  }
}
