/** Small result types shared by every module. */
module Basics {

  datatype Option<+T> = None | Some(value: T)

  /** Why the server turned a request down, as the window tells the reasons apart. */
  datatype Refusal =
    | Conflict        // 409: the data changed in another window, or the operation id was used before
    | Unprocessable   // 422: the data breaks a rule of its own
    | NotFound        // 404
    | Unreachable     // status 0: no answer came back

  /** A server step that either finishes or turns the whole request down. */
  datatype Outcome<+T> = Done(value: T) | Refused(why: Refusal) {
    predicate IsFailure() {
      Refused?
    }

    function PropagateFailure<U>(): Outcome<U>
      requires Refused?
    {
      Refused(why)
    }

    function Extract(): T
      requires Done?
    {
      value
    }
  }

  /** The elements of `s` as a set. */
  function Elements<T>(s: seq<T>): set<T> {
    set x | x in s
  }

  predicate Distinct<T(==)>(s: seq<T>) {
    forall i, j :: 0 <= i < j < |s| ==> s[i] != s[j]
  }
}
