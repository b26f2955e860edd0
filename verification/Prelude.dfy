/** Shared vocabulary: optional values and sequences read as bags. */
module Prelude {

  type Byte = b: int | 0 <= b < 256

  datatype Option<+T> = None | Some(value: T)

  function B(b: bool): nat {
    if b then 1 else 0
  }

  /** The sequence with every occurrence of `x` erased. */
  function Without<T(==,!new)>(q: seq<T>, x: T): (r: seq<T>)
    ensures forall y :: multiset(r)[y] == if y == x then 0 else multiset(q)[y]
    ensures forall y :: y in r <==> y in q && y != x
  {
    if q == [] then []
    else
      assert q == [q[0]] + q[1..];
      if q[0] == x then Without(q[1..], x) else [q[0]] + Without(q[1..], x)
  }
}
