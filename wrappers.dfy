/** The optional value used for every packet field that may be absent. */
module Wrappers {

  datatype Option<+T> = None | Some(value: T)

  /** Zero or one element: what an optional append adds to a list. */
  function AsSeq<T>(o: Option<T>): seq<T>
  {
    match o
    case None => []
    case Some(v) => [v]
  }
}
