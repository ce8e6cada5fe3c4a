// What several modules need of bytes, numbers and sequences.
module Basics {
  newtype byte = b: int | 0 <= b < 0x100

  function Min(a: nat, b: nat): nat {
    if a <= b then a else b
  }

  lemma Assoc<T>(a: seq<T>, b: seq<T>, c: seq<T>)
    ensures a + (b + c) == (a + b) + c
  {
  }
}
