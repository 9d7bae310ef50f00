/** Optional values and the errors the modelled code returns.

    `Error` mirrors the variants of DataFusion's `DataFusionError` that the
    shuffle writer and the variance accumulator produce. `Panic` stands for a
    Rust panic (`assert_eq!`, `unreachable!`, an index out of range, a
    remainder by zero): the program aborts there instead of returning, and the
    model reports where. */
module Errors {

  datatype Option<+T> = None | Some(value: T) {

    /** `Option::unwrap_or` */
    function GetOr(default: T): T {
      match this
      case Some(v) => v
      case None => default
    }
  }

  datatype Error =
    | Execution(msg: string)
    | Plan(msg: string)
    | Internal(msg: string)
    | Arrow(msg: string)
    | Panic(msg: string)

  datatype Result<+T> = Ok(value: T) | Err(error: Error)
}
