/** Shared vocabulary of the model: optional values and bytes. */
module Prelude {

  /** Swift's `Optional`: a value that may be absent. */
  datatype Option<T> = None | Some(value: T) {

    /** The wrapped value, or `fallback` when absent (Swift's `??` with a plain right side). */
    function GetOr(fallback: T): T {
      if Some? then value else fallback
    }

    /** This value when present, otherwise `other` (Swift's `??` with an optional right side). */
    function OrElse(other: Option<T>): Option<T> {
      if Some? then this else other
    }
  }

  /** One octet of a `Data` buffer. */
  newtype byte = b: int | 0 <= b < 256
}
