/** Small value wrappers shared by every module of the model. */
module Wrappers {

  /** A value that may be missing (Python's `None`). */
  datatype Option<+T> = None | Some(value: T) {
    function GetOr(default: T): T {
      match this
      case Some(v) => v
      case None => default
    }
  }

  /**
   * One key of a decoded JSON object, as `dict.get` sees it: the key is absent,
   * present with the value `null`, or present with a value.
   */
  datatype Field<+T> = Absent | Null | Present(value: T) {

    /**
     * `d.get(key, default)`: the default only when the key is absent; a key
     * present with `null` yields `None`.
     */
    function GetWithDefault(default: T): (r: Option<T>)
      ensures r.None? <==> Null?
      ensures Absent? ==> r == Some(default)
      ensures Present? ==> r == Some(value)
    {
      match this
      case Absent => Some(default)
      case Null => None
      case Present(v) => Some(v)
    }

    /** `d.get(key)`: `None` for both an absent key and a `null` value. */
    function Get(): (r: Option<T>)
      ensures r.Some? <==> Present?
    {
      if Present? then Some(value) else None
    }
  }
}
