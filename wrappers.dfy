/** An optional value: the model's rendering of a TypeScript `T | undefined`
    and of an optional property that may be absent from an object. */
module Wrappers {

  datatype Option<+T> = None | Some(value: T) {

    /** The value when present, the given default otherwise. */
    function GetOr(default: T): T {
      match this
      case Some(v) => v
      case None => default
    }
  }
}
