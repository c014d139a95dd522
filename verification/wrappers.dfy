/** Optional values: the success flag of the effect hook and of region queries. */
module Wrappers {

  datatype Option<+T> = None | Some(value: T) {

    /** The encapsulated value, or `default` when there is none. */
    function GetOr(default: T): T {
      match this
      case Some(v) => v
      case None => default
    }
  }

  /**
   * The outcome of an action that may dereference a parameter the instance
   * never fetched: a crash, or a returned value.
   */
  datatype Outcome<+T> = Crash | Done(value: T)
}
