/** Types shared by every module of the model. */
module Prelude {

  datatype Option<+T> = None | Some(value: T)

  datatype Result<+T, +E> = Success(value: T) | Failure(error: E)

  newtype byte = b: int | 0 <= b < 0x100

  /** Clock readings and durations, in nanoseconds. A reading is whatever the clock returns: successive
      readings need not increase. */
  type Time = int

  /** A store instance: one FileStore object in one process. */
  type Instance = nat

  lemma AppendAssoc<X>(a: seq<X>, b: seq<X>, c: seq<X>)
    ensures (a + b) + c == a + (b + c)
  {
  }
}
