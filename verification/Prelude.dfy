/** Types and small facts shared by the whole model. Go strings are byte
    sequences, so every name, path and payload is a `Str`. */
module Prelude {

  datatype Option<+T> = None | Some(value: T)

  datatype Result<+T, +E> = Ok(value: T) | Err(error: E)

  type byte = x: int | 0 <= x < 256

  type uint32 = x: int | 0 <= x < 0x1_0000_0000

  type Str = seq<byte>

  const SLASH: byte := 47
  const HYPHEN: byte := 45

  function Min(a: nat, b: nat): nat {
    if a < b then a else b
  }

  /** The elements of a sequence, without their order. */
  function Elems<T>(s: seq<T>): set<T> {
    set x | x in s
  }

  /** Every finite set can be listed, each element once. */
  lemma {:induction false} Enumeration<T>(all: set<T>) returns (order: seq<T>)
    ensures Elems(order) == all
    ensures forall i, j | 0 <= i < j < |order| :: order[i] != order[j]
  {
    if all == {} {
      order := [];
    } else {
      var x :| x in all;
      var rest := Enumeration(all - {x});
      assert forall y | y in rest :: y in Elems(rest);
      order := [x] + rest;
      assert Elems(order) == {x} + Elems(rest);
    }
  }
}
