/** Optional values, the exceptions the application raises or catches, and results that
    carry either a value or the exception that interrupted the computation. */
module Outcomes {

  datatype Option<+T> = None | Some(value: T) {
    /** `d.get(key, default)` style fallback. */
    function GetOr(default: T): T {
      match this
      case Some(v) => v
      case None => default
    }
  }

  /** The exceptions that can reach the application's `except` clauses. */
  datatype Exception =
    | KeyError(key: string)                  // a portfolio row without a required column
    | QueryRejected                          // the vector store refused a `query_texts` value
    | OutputParserException(message: string) // the extraction reply was not JSON
    | ModelFailure(message: string)          // a call to the language model failed in transport
    | AttributeError(attribute: string)      // `job.get` on a job that is not a JSON object
    | FetchFailure(message: string)          // loading or cleaning the job page failed

  /** Either a value or the exception raised instead of it. */
  datatype Result<+T> = Ok(value: T) | Raised(error: Exception)
}
