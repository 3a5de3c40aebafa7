/** Optional values: the model of a TypeScript optional field (`x?: T`) and of
    a lookup that can miss. */
module Wrappers {

  datatype Option<+T> = None | Some(value: T) {

    /** `value ?? default` */
    function GetOr(default: T): (r: T)
      ensures Some? ==> r == value
      ensures None? ==> r == default
    {
      match this
      case Some(v) => v
      case None => default
    }

    predicate IsFailure() {
      None?
    }

    function PropagateFailure<U>(): Option<U>
      requires None?
    {
      None
    }

    function Extract(): T
      requires Some?
    {
      value
    }
  }
}
