/** Value wrappers shared by the store and the media modules. */
module Wrappers {

  /** Kotlin's nullable type `T?`. */
  datatype Option<+T> = None | Some(value: T) {

    /** Kotlin's elvis operator `x ?: default`. */
    function GetOr(default: T): (r: T)
      ensures Some? ==> r == value
      ensures None? ==> r == default
    {
      match this
      case Some(v) => v
      case None => default
    }
  }

  /** The exceptions the modelled code can raise. None of them is caught inside the core. */
  datatype Exception =
    | IllegalState           // `error(e)` after an IOException in a store write
    | IndexOutOfBounds       // an insert at an index outside 0..size
    | UninitializedProperty  // a `lateinit` property read before `init`
    | ClassCast              // a stored object of another class than the one asked for

  /** How a call ends: normally, or by raising an exception to its caller. */
  datatype Outcome = Completed | Thrown(exception: Exception)
}
