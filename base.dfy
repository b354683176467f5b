/** Small shared vocabulary: an optional value, used for Python's `None`. */
module Base {

  /** A value that may be absent; `None` stands for Python's `None`. */
  datatype Option<T> = None | Some(value: T) {

    /** `this` if present, otherwise `default` (Python's `dict.get(key, default)`). */
    function GetOr(default: T): T {
      match this
      case Some(v) => v
      case None => default
    }
  }

  /** Concatenation regroups freely; stated once, generically, so the element type's equality plays no part. */
  lemma ConcatAssoc<T>(a: seq<T>, b: seq<T>, c: seq<T>)
    ensures (a + b) + c == a + (b + c)
  {
  }
}
