/** Option, and the "present key / absent key" distinction of a JavaScript partial object. */
module Wrappers {

  /** A value that may be absent: JavaScript `undefined`, or SQL NULL in a row. */
  datatype Option<+T> = None | Some(value: T) {
    /** `x ?? default` */
    function GetOr(default: T): T {
      match this
      case Some(v) => v
      case None => default
    }
  }

  /**
   * One key of a `Partial<...>` update object: `Keep` when the key is absent, so that
   * `{ ...old, ...update }` keeps the old value, and `Set(v)` when the key is present,
   * even with the value `undefined` (which an optional field spells `Set(None)`).
   */
  datatype Patch<+T> = Keep | Set(value: T) {
    function Apply(previous: T): T {
      match this
      case Set(v) => v
      case Keep => previous
    }
  }

  /**
   * What a spread `{ ...old, ...update }` promises about one field: a present key writes its
   * value (`undefined` included), an absent key leaves the old value in place.
   */
  ghost predicate Campo<T>(p: Patch<T>, antes: T, depois: T) {
    (p.Set? ==> depois == p.value) && (p.Keep? ==> depois == antes)
  }
}
