/** Option and Result, for the nullable fields of a query row and for the
    `{ data, error }` outcome of the leaderboard query. */
module Wrappers {

  datatype Option<+T> = None | Some(value: T)

  datatype Result<+T, +E> = Ok(value: T) | Err(error: E)
}
