/** Value types shared by every module of the model. */
module Base {

  /** One element of a Python `bytes` object. */
  type byte = b: int | 0 <= b < 0x100

  /** A Python value that may be `None`. */
  datatype Option<T> = None | Some(value: T) {
    /** `dict.get(key, default)` style access. */
    function GetOr(default: T): T {
      if Some? then value else default
    }
  }

  /** The outcome of an operation that either returns or raises. */
  datatype Result<T, E> = Success(value: T) | Failure(error: E)

  /** Writing b and then c after a is writing b + c after a. */
  lemma AppendAssoc<T>(a: seq<T>, b: seq<T>, c: seq<T>)
    ensures a + b + c == a + (b + c)
  {
  }
}
