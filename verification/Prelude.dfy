/** Small value types shared by every component. */
module Prelude {

  datatype Option<+T> = None | Some(value: T) {
    function GetOr(default: T): T {
      match this
      case Some(v) => v
      case None => default
    }
  }

  datatype Result<+T, +E> = Ok(value: T) | Err(error: E)

  function Lookup<K, V>(table: map<K, V>, key: K): Option<V> {
    if key in table then Some(table[key]) else None
  }

  function Min(a: int, b: int): int {
    if a <= b then a else b
  }

  function Max(a: int, b: int): int {
    if a >= b then a else b
  }

  /** A worklist over the members of a set: what taking one element out does to the part done. */
  lemma TakeOut<T>(all: set<T>, todo: set<T>, x: T)
    requires x in todo
    ensures all - (todo - {x}) == (all - todo) + (if x in all then {x} else {})
    ensures |all - (todo - {x})| == |all - todo| + (if x in all then 1 else 0)
  {
    var after := (all - todo) + (if x in all then {x} else {});
    assert all - (todo - {x}) == after;
    assert x !in all - todo;
  }

  lemma HeadIsMember<T>(s: seq<T>)
    ensures s != [] ==> s[0] in s
  {
  }
}
