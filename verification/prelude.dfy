/**
  Small building blocks shared by the rest of the model: an optional value,
  the 32-bit signed integer type the command-line ids are parsed into, and
  the first-match search that `Iterator::find` performs over a list.
 */
module Prelude {

  /** The conventional Some/None datatype. */
  datatype Option<+T> = None | Some(value: T)

  /** Whether `x` fits in 32 bits, two's complement. */
  predicate InI32(x: int) {
    -0x8000_0000 <= x < 0x8000_0000
  }

  /** Rust's `i32`: the width of exercise chapter and section numbers. */
  newtype i32 = x: int | InI32(x)

  /**
    The index of the first element of `xs` satisfying `p`, or None when no
    element does: the position `Iterator::find` stops at.
   */
  function FindFirst<T>(xs: seq<T>, p: T -> bool): (r: Option<nat>)
    ensures r.None? <==> forall i :: 0 <= i < |xs| ==> !p(xs[i])
    ensures r.Some? ==> r.value < |xs| && p(xs[r.value])
    ensures r.Some? ==> forall j :: 0 <= j < r.value ==> !p(xs[j])
    decreases |xs|
  {
    if |xs| == 0 then None
    else if p(xs[0]) then Some(0)
    else
      match FindFirst(xs[1..], p)
      case None => None
      case Some(k) => Some(k + 1)
  }

  /** A search that succeeds at index `k` returns that element and no other. */
  lemma FindFirstUnique<T>(xs: seq<T>, p: T -> bool, k: nat)
    requires k < |xs| && p(xs[k])
    requires forall i, j :: 0 <= i < j < |xs| && p(xs[i]) ==> !p(xs[j])
    ensures FindFirst(xs, p) == Some(k)
  {
  }
}
