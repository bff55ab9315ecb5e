/** Optional values: a missing dictionary key or a JSON field that is absent. */
module Wrappers {

  /** A value that may be missing; `Some` carries it. */
  datatype Option<T> = Some(value: T) | None {

    /** Python's `dict.get(key, fallback)`: the carried value, else `fallback`. */
    function GetOr(fallback: T): T {
      if Some? then value else fallback
    }
  }

  /** Python truthiness of an optional string: present and non-empty. */
  predicate Truthy(v: Option<string>) {
    v.Some? && v.value != ""
  }
}
