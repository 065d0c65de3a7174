/** The usual optional value, and its view as a sequence of at most one element. */
module Optional {

  datatype Option<+T> = None | Some(value: T)

  /** The elements an optional value contributes to a log: none or exactly one. */
  function ToSeq<T>(o: Option<T>): (s: seq<T>)
    ensures |s| <= 1
    ensures |s| == 1 <==> o.Some?
    ensures o.Some? ==> s[0] == o.value
  {
    match o
    case None => []
    case Some(v) => [v]
  }
}
