/** Optional values, outcomes of guarded operations, and 128-bit identifiers. */
module Basics {

  datatype Option<+T> = None | Some(value: T)

  /** The result of an operation that may raise: a raised error rolls everything back. */
  datatype Result<+T, +E> = Ok(value: T) | Err(error: E)

  const UUID_BOUND := 0x1_0000_0000_0000_0000_0000_0000_0000_0000

  type Uuid = n: int | 0 <= n < UUID_BOUND

  /** The first element occurring at or after each position, duplicates dropped. */
  function Distinct<T(==, !new)>(s: seq<T>): (r: seq<T>)
    ensures forall x :: x in r <==> x in s
    ensures forall i, j :: 0 <= i < j < |r| ==> r[i] != r[j]
  {
    if s == [] then [] else
    var r := Distinct(s[..|s| - 1]);
    var x := s[|s| - 1];
    assert s == s[..|s| - 1] + [x];
    if x in r then r else r + [x]
  }
}
