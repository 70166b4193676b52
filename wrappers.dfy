/** Small value types shared by the board modules. */
module Wrappers {

  /** A C# reference or list that may be null. */
  datatype Option<T> = None | Some(value: T)

  /** The contents of a nullable list, a null list reading as empty. */
  function Items<T>(l: Option<seq<T>>): seq<T>
  {
    if l.Some? then l.value else []
  }

  /** No entry of the list occurs twice. */
  predicate Distinct<T(==)>(s: seq<T>)
  {
    forall i, j :: 0 <= i < j < |s| ==> s[i] != s[j]
  }

  /** The .NET exceptions the board code can throw out of an editor callback. */
  datatype Failure =
    | NullReference        // a member accessed on a null list
    | KeyNotFound          // a dictionary indexed with a missing key
    | ArgumentOutOfRange   // a list indexed outside 0 .. Count-1
}
