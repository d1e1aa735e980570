/** Datatypes shared by every module of the model. */
module Common {

  datatype Option<+T> = None | Some(value: T)

  /** The source's `Result`: a value, or the error that was reported. */
  datatype Result<+T, +E> = Ok(value: T) | Err(error: E)

  function ToSet<T>(s: seq<T>): set<T> {
    set x | x in s
  }

  lemma {:induction false} SubsetSize<T>(a: set<T>, b: set<T>)
    requires a <= b
    ensures |a| <= |b|
  {
    if x :| x in a { SubsetSize(a - {x}, b - {x}); }
  }
}
