/** Failure-carrying wrappers shared by every part of the simulation engine. */
module Common {

  /** A value that may be absent; `None` also stands for numpy's NaN where an
      operation over an empty slice yields one. */
  datatype Option<+T> = None | Some(value: T)

  /** The ways an engine call fails without returning a table or a statistic. */
  datatype SimError =
    | UnknownDistribution(kind: string)   // the label is none of the three kinds
    | RejectedParameters(kind: string)    // numpy refuses the bounds (negative scale, left >= right)
    | NoVariables                          // nothing to stack into a value matrix
    | ZeroWeightSum                        // normalisation divides by zero
    | NothingToConcatenate                 // no batch ran, so there is nothing to concatenate
    | EmptyInput                           // statistics over zero outcomes

  /** Either a value or the error that stopped the call. */
  datatype Result<+T> = Ok(value: T) | Err(error: SimError)
}
