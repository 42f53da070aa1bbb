/**
 * Small shared pieces: an optional value standing in for a C pointer that may
 * be NULL, and the `realloc` step both growable buffers of the shell use.
 */
module Options {

  /** A value that may be absent; `None` plays the part of C's NULL. */
  datatype Option<+T> = None | Some(value: T)
}

module Buffers {

  /**
   * `realloc` that succeeds: a fresh array of `size` cells whose prefix is the
   * old contents. The cells past the old length are unspecified in C; here
   * they hold `fill`.
   */
  method Realloc<T>(a: array<T>, size: nat, fill: T) returns (b: array<T>)
    requires a.Length <= size
    ensures fresh(b)
    ensures b.Length == size
    ensures forall i :: 0 <= i < a.Length ==> b[i] == a[i]
  {
    b := new T[size](i requires 0 <= i < size reads a => if i < a.Length then a[i] else fill);
  }
}
