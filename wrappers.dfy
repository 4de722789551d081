/** The optional value used throughout the model: `None` stands for JavaScript's
    `undefined`/`null` result or a thrown exception, as each member says. */
module Wrappers {

  datatype Option<+T> = None | Some(value: T) {

    /** The wrapped value, or `default` when there is none. */
    function GetOr(default: T): T {
      match this
      case Some(v) => v
      case None => default
    }
  }
}
