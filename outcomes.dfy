/** Failure values of the estimator. Each constructor stands for one way the
    `p_est.py` raises instead of returning. */
module Outcomes {

  datatype Error =
    /** a sensor file could not be opened or did not hold a number */
    | ReadError(path: string)
    /** `x / 0`: zero idle samples, or a sampling rate of zero */
    | ZeroDivision
    /** `time.sleep` was handed a negative duration */
    | NegativeSleep
    /** `max` of an empty list of powers */
    | EmptyMax

  datatype Result<+T> = Ok(value: T) | Err(error: Error)
}
