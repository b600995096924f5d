/**
  The shapes in which the hosted table answers. Every `insert`, `update` and
  `delete` either succeeds or reports an error (a non-null `error` field or a
  thrown exception, which both pages treat alike); a `select` of the whole
  table yields its rows, possibly null.
 */
module Remote {
  import opened Js

  datatype Outcome = Ok | Err

  /** The answer to `select('*')`: rows (possibly null) or an error. */
  datatype Fetch<T> = Fetched(data: Option<seq<T>>) | FetchFailed

  /**
    The list after a fetch: the rows returned on success (none when they are
    null), the previous list when the fetch failed (the error is only logged).
   */
  function Reloaded<T>(current: seq<T>, f: Fetch<T>): (r: seq<T>)
    ensures f.FetchFailed? ==> r == current
    ensures f.Fetched? ==> r == f.data.GetOr([])
  {
    match f
    case Fetched(data) => data.GetOr([])
    case FetchFailed => current
  }
}
