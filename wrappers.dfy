/** Small value types shared by the backend and frontend models. */
module Wrappers {

  datatype Option<+T> = None | Some(value: T)

  /** The outcome of an operation that may raise or reject: a value, or the error it ends with. */
  datatype Result<+T, +E> = Ok(value: T) | Err(error: E)

  /**
   * One field of a partial-update body. Pydantic's `dict(exclude_unset=True)` keeps only the
   * fields the client sent, so a field is either absent or supplied with a value.
   */
  datatype Patch<+T> = Unset | Set(value: T)

  /** `update_data.get(key, stored)`: the supplied value, else the stored one. */
  function PatchOr<T>(p: Patch<T>, stored: T): (r: T)
    ensures p.Set? ==> r == p.value
    ensures p.Unset? ==> r == stored
  {
    if p.Set? then p.value else stored
  }

  /** An HTTP error raised by an endpoint or a dependency (`HTTPException`). */
  datatype HttpError = HttpError(status: int, detail: string)

  /** A calendar date (Python `date`). */
  datatype Date = Date(year: int, month: int, day: int)

  /** Lexicographic order on (year, month, day), the order Python compares dates in. */
  predicate DateLeq(a: Date, b: Date)
  {
    a.year < b.year || (a.year == b.year && (a.month < b.month || (a.month == b.month && a.day <= b.day)))
  }
}
