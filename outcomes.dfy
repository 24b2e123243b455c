/** Optional values, results and the exceptions the CoVeR bookkeeping can raise. */
module Outcomes {

  datatype Option<+T> = None | Some(value: T)

  /** The exceptions raised by the modelled code. */
  datatype Error =
    | NotFitToCorpusError  // batches requested before any merged co-occurrence tensor exists
    | NotTrainedError      // covariate embeddings read before they exist
    | UnpackError          // ValueError: `zip(*[])` yields nothing to unpack into four names
    | AttributeError       // an attribute looked up on a value of the wrong kind

  datatype Result<+T> = Ok(value: T) | Err(error: Error)
}
