/** The uniform result shape shared by every adapter, the coordinator and the UI guards,
    and the optional / fallible values the engines hand back. */
module Results {

  /** A value that may be absent: a missing dictionary key, or an adapter that `None` stands for. */
  datatype Option<T> = None | Some(value: T) {

    /** The value, or `default` when absent (Python's `dict.get(key, default)`). */
    function GetOr(default: T): (r: T)
      ensures Some? ==> r == value
      ensures None? ==> r == default
    {
      match this
      case Some(v) => v
      case None => default
    }
  }

  /** What an external engine call produces: a value, or the text of the exception it raised (`str(e)`). */
  datatype Outcome<T> = Ok(value: T) | Err(msg: string)

  /** The `(answer, source_description)` pair every query returns. */
  datatype QueryResult = QueryResult(answer: string, source: string)

  /** Every failure marker in the system starts with this glyph; no success description does. */
  const FailureGlyph: char := '❌'

  /** A result whose source description carries a failure marker. */
  predicate Failed(r: QueryResult)
  {
    |r.source| > 0 && r.source[0] == FailureGlyph
  }
}
