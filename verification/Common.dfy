/** Small notions that many modules share. */
module Common {

  datatype Option<T> = None | Some(value: T)

  /** What an operation returns that may fail. */
  datatype Outcome<T, E> = Done(value: T) | Failed(error: E)

  function Abs(a: int): nat { if a < 0 then -a else a }
  function Min(a: int, b: int): int { if a < b then a else b }
  function Max(a: int, b: int): int { if a < b then b else a }

  ghost predicate NoDuplicates<T>(s: seq<T>) {
    forall i, j :: 0 <= i < j < |s| ==> s[i] != s[j]
  }
}
