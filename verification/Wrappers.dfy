/** Optional values and results, for the source's nil pointers and error returns, and the two
    sides of a path. */
module Wrappers {
  datatype Option<+T> = None | Some(value: T)

  datatype Result<+T, +E> = Ok(value: T) | Err(error: E)

  datatype Side = Src | Dst {
    function Other(): Side { if this == Src then Dst else Src }
  }
}
