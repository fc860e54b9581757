/**
 * Error values for the places where the Python code raises, exits or returns
 * an IEEE special value.
 */
module Outcomes {

  datatype Error =
    | EmptyInput          // scipy.stats.linregress: "Inputs must not be empty."
    | IdenticalX          // scipy.stats.linregress: all x values identical (n > 1)
    | SingleSample        // scipy.stats.linregress on one sample: slope 0/0 is NaN
    | LengthMismatch      // x and y of different lengths
    | DegenerateFit       // sigma_ct == 0: the calibration divides by zero
    | EmptyRegion         // no voxel contributes to a mean
    | NegativeSize        // numpy asked for an array of negative length
    | ZeroDenominator     // a divisor of a closed-form conversion is zero
    | UnrecognizedFormat(path: string)  // the driver's "image format not recognized" exit

  datatype Result<T> = Ok(value: T) | Err(error: Error)

  datatype Option<T> = None | Some(value: T)
}
