/** Optional values, standing for the cells of the match table that may be empty. */
module Wrappers {

  /** A cell that holds a value or is missing (NaN in the table). */
  datatype Option<T> = None | Some(value: T) {

    /** The value held, or `default` when the cell is missing. */
    function GetOr(default: T): T {
      match this
      case Some(v) => v
      case None => default
    }
  }
}
