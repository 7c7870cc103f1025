/** The explicit loops that the numpy vectorised operations are timed
    against: element-wise addition of two arrays and addition of a scalar,
    both writing into an output array in place. */
module ArrayLoops {

  /** numpy's `a + b` on equal-length arrays. */
  function ElementwiseSum(a: seq<real>, b: seq<real>): seq<real>
    requires |a| == |b|
  {
    seq(|a|, i requires 0 <= i < |a| => a[i] + b[i])
  }

  /** numpy's broadcast `a + x`. */
  function Broadcast(a: seq<real>, x: real): seq<real>
  {
    seq(|a|, i requires 0 <= i < |a| => a[i] + x)
  }

  /** `add_two_arrays_demo` (its `array1`, `array2` are `first`, `second`):
      `out[i]` becomes `first[i] + second[i]` for every index of `first`; the
      rest of `out` is untouched. `out` may be one of
      the inputs, since each position is read before it is written. */
  method AddTwoArrays(first: array<real>, second: array<real>, out: array<real>)
    requires second.Length >= first.Length && out.Length >= first.Length
    modifies out
    ensures forall i :: 0 <= i < first.Length ==> out[i] == old(first[i]) + old(second[i])
    ensures forall i :: first.Length <= i < out.Length ==> out[i] == old(out[i])
    ensures first.Length == second.Length == out.Length ==>
      out[..] == ElementwiseSum(old(first[..]), old(second[..]))
  {
    for i := 0 to first.Length
      invariant forall k :: 0 <= k < i ==> out[k] == old(first[k]) + old(second[k])
      invariant forall k :: i <= k < first.Length ==> first[k] == old(first[k]) && second[k] == old(second[k])
      invariant forall k :: i <= k < out.Length ==> out[k] == old(out[k])
    {
      out[i] := first[i] + second[i];
    }
  }

  /** `add_scalar`: `out[i] = array[i] + toAdd` for every index of `array`;
      the rest of `out` is untouched. */
  method AddScalar(a: array<real>, toAdd: real, out: array<real>)
    requires out.Length >= a.Length
    modifies out
    ensures forall i :: 0 <= i < a.Length ==> out[i] == old(a[i]) + toAdd
    ensures forall i :: a.Length <= i < out.Length ==> out[i] == old(out[i])
    ensures a.Length == out.Length ==> out[..] == Broadcast(old(a[..]), toAdd)
  {
    for i := 0 to a.Length
      invariant forall k :: 0 <= k < i ==> out[k] == old(a[k]) + toAdd
      invariant forall k :: i <= k < a.Length ==> a[k] == old(a[k])
      invariant forall k :: i <= k < out.Length ==> out[k] == old(out[k])
    {
      out[i] := a[i] + toAdd;
    }
  }

  /** `np.arange(n)` as floats. */
  method Arange(n: nat) returns (a: array<real>)
    ensures fresh(a) && a.Length == n && forall i :: 0 <= i < n ==> a[i] == i as real
  {
    a := new real[n](i => i as real);
  }

  /** Example 2: two `arange(100)` arrays added into a zeroed array give 2i at index i. */
  method TwoArraysExample() returns (sumArray: seq<real>)
    ensures |sumArray| == 100 && forall i :: 0 <= i < 100 ==> sumArray[i] == 2.0 * i as real
  {
    var a := Arange(100);
    var b := Arange(100);
    var out := new real[100](_ => 0.0);
    AddTwoArrays(a, b, out);
    sumArray := out[..];
  }

  /** Example 3: `add_scalar(arange(100), 100, out)` gives i + 100 at index i. */
  method ScalarExample() returns (sumArray: seq<real>)
    ensures |sumArray| == 100 && forall i :: 0 <= i < 100 ==> sumArray[i] == i as real + 100.0
  {
    var a := Arange(100);
    var out := new real[100](_ => 0.0);
    AddScalar(a, 100.0, out);
    sumArray := out[..];
  }
}
