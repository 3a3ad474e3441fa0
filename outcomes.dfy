/** Values and failures shared by every part of the model.

    The Python program signals failure by raising; the model returns a
    `Result` whose error names the exception the program would raise. */
module Outcomes {

  datatype Option<+T> = None | Some(value: T)

  /** The exceptions the modelled code can raise. */
  datatype Error =
    | KeyError(key: string)   // a dict lookup of a missing key
    | IndexError              // `.values[0]` on an empty DataFrame selection
    | ZeroDivisionError       // division by a zero length or a zero discount factor
    | ValueError              // numpy's normal sampler given a negative scale
    | TypeError               // an unsupported comparison or subscript

  datatype Result<+T> = Ok(value: T) | Err(error: Error)
}
