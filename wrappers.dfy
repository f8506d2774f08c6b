/** Small value types shared by the rest of the model. */
module Wrappers {

  /** A reference that may be null. */
  datatype Option<+T> = None | Some(value: T)

  /**
   * What an `Equals(object o)` override sees of its argument once it has
   * tried the cast `o as T`: a null reference, an instance of `T`, or an
   * object of some other type (for which the cast yields null).
   */
  datatype ObjectArg<+T> = Null | Instance(value: T) | OtherType

  /** A possibly-null `T` passed where an `object` is expected. */
  function AsObject<T>(x: Option<T>): (o: ObjectArg<T>)
    ensures o.Instance? <==> x.Some?
    ensures x.Some? ==> o.value == x.value
    ensures !o.OtherType?
  {
    match x
    case None => Null
    case Some(v) => Instance(v)
  }
}
