/** Sequence and string helpers shared by the models: Python's `str.find`,
    `str.endswith`, substring membership, `list.count`, `sum`, and numpy's
    `argmax`, each stated once. */
module Seqs {

  datatype Option<T> = None | Some(value: T)

  /** The Python exceptions the modelled scripts can raise on bad input. */
  datatype PyError = KeyError | IndexError | NameError | ValueError | ZeroDivisionError | AttributeError | EOFError

  /** A Python call that either returns a value or raises. */
  datatype Result<T> = Success(value: T) | Failure(error: PyError)

  /** `s[i..i + |p|] == p`: `p` occurs in `s` at index `i`. */
  predicate OccursAt(s: string, p: string, i: int)
  {
    0 <= i && i + |p| <= |s| && s[i..i + |p|] == p
  }

  /** The first index at or after `from` where `p` occurs, or -1. */
  function FindFrom(s: string, p: string, from: nat): (r: int)
    requires from <= |s| + 1
    ensures r == -1 || (from <= r && OccursAt(s, p, r))
    ensures r == -1 ==> forall i :: from <= i <= |s| ==> !OccursAt(s, p, i)
    ensures r != -1 ==> forall i :: from <= i < r ==> !OccursAt(s, p, i)
    decreases |s| + 1 - from
  {
    if from + |p| > |s| then
      assert forall i :: from <= i <= |s| ==> !OccursAt(s, p, i);
      -1
    else if s[from..from + |p|] == p then from
    else FindFrom(s, p, from + 1)
  }

  /** Python's `s.find(p)`: the index of the first occurrence of `p`, -1 when absent. */
  function Find(s: string, p: string): (r: int)
    ensures -1 <= r <= |s|
    ensures r >= 0 ==> OccursAt(s, p, r) && forall i :: 0 <= i < r ==> !OccursAt(s, p, i)
    ensures r == -1 <==> forall i :: 0 <= i <= |s| ==> !OccursAt(s, p, i)
  {
    FindFrom(s, p, 0)
  }

  /** Python's `p in s` for strings. */
  predicate Contains(s: string, p: string)
  {
    Find(s, p) >= 0
  }

  /** Python's `s.endswith(suffix)`. */
  predicate EndsWith(s: string, suffix: string)
  {
    |suffix| <= |s| && s[|s| - |suffix|..] == suffix
  }

  /** Python's `list.count(x)`. */
  function Count<T(==)>(s: seq<T>, x: T): (n: nat)
    ensures n <= |s|
    ensures n == 0 <==> x !in s
  {
    if s == [] then 0 else Count(s[..|s| - 1], x) + (if s[|s| - 1] == x then 1 else 0)
  }

  function SumInts(s: seq<int>): int
  {
    if s == [] then 0 else SumInts(s[..|s| - 1]) + s[|s| - 1]
  }

  function SumReals(s: seq<real>): real
  {
    if s == [] then 0.0 else SumReals(s[..|s| - 1]) + s[|s| - 1]
  }

  function SumNats(s: seq<nat>): nat
  {
    if s == [] then 0 else SumNats(s[..|s| - 1]) + s[|s| - 1]
  }

  /** numpy's `argmax`: the lowest index holding the largest value. */
  function ArgMax(s: seq<real>): (k: nat)
    requires |s| > 0
    ensures k < |s|
    ensures forall i :: 0 <= i < |s| ==> s[i] <= s[k]
    ensures forall i :: 0 <= i < k ==> s[i] < s[k]
  {
    ArgMaxBelow(s, |s|)
  }

  /** The lowest index of the largest of s[0], ..., s[n-1]. */
  function ArgMaxBelow(s: seq<real>, n: nat): (k: nat)
    requires 0 < n <= |s|
    ensures k < n
    ensures forall i :: 0 <= i < n ==> s[i] <= s[k]
    ensures forall i :: 0 <= i < k ==> s[i] < s[k]
  {
    if n == 1 then 0
    else
      var k := ArgMaxBelow(s, n - 1);
      if s[n - 1] > s[k] then n - 1 else k
  }

  /** Python's `int(x)` on a float: truncation toward zero. */
  function Trunc(x: real): (r: int)
    ensures x >= 0.0 ==> r as real <= x < r as real + 1.0
    ensures x < 0.0 ==> r as real - 1.0 < x <= r as real
  {
    if x >= 0.0 then x.Floor else -((-x).Floor)
  }

  /** `int(round(x, 0))`: the nearest integer, ties to the even one. */
  function RoundHalfEven(x: real): (r: int)
    ensures -0.5 <= r as real - x <= 0.5
    ensures (r as real - x == 0.5 || x - r as real == 0.5) ==> r % 2 == 0
  {
    var f := x.Floor;
    var d := x - f as real;
    if d < 0.5 then f
    else if d > 0.5 then f + 1
    else if f % 2 == 0 then f else f + 1
  }

  /** For a non-negative value, rounding gives the truncation or one more. */
  lemma TruncAndRound(x: real)
    requires x >= 0.0
    ensures Trunc(x) <= RoundHalfEven(x) <= Trunc(x) + 1
  {
  }

  lemma {:induction false} CountAppend<T>(s: seq<T>, t: seq<T>, x: T)
    ensures Count(s + t, x) == Count(s, x) + Count(t, x)
    decreases |t|
  {
    if t == [] {
      assert s + t == s;
    } else {
      assert (s + t)[..|s + t| - 1] == s + t[..|t| - 1];
      CountAppend(s, t[..|t| - 1], x);
    }
  }

  lemma {:induction false} SumNatsAppend(s: seq<nat>, t: seq<nat>)
    ensures SumNats(s + t) == SumNats(s) + SumNats(t)
    decreases |t|
  {
    if t == [] {
      assert s + t == s;
    } else {
      assert (s + t)[..|s + t| - 1] == s + t[..|t| - 1];
      SumNatsAppend(s, t[..|t| - 1]);
    }
  }

  lemma {:induction false} SumIntsAppend(s: seq<int>, t: seq<int>)
    ensures SumInts(s + t) == SumInts(s) + SumInts(t)
    decreases |t|
  {
    if t == [] {
      assert s + t == s;
    } else {
      assert (s + t)[..|s + t| - 1] == s + t[..|t| - 1];
      SumIntsAppend(s, t[..|t| - 1]);
    }
  }

  lemma {:induction false} SumRealsAppend(s: seq<real>, t: seq<real>)
    ensures SumReals(s + t) == SumReals(s) + SumReals(t)
    decreases |t|
  {
    if t == [] {
      assert s + t == s;
    } else {
      assert (s + t)[..|s + t| - 1] == s + t[..|t| - 1];
      SumRealsAppend(s, t[..|t| - 1]);
    }
  }

  /** Adding one to a single position of a sequence of counts adds one to its sum. */
  lemma {:induction false} SumNatsIncrement(s: seq<nat>, k: nat)
    requires k < |s|
    ensures SumNats(s[k := s[k] + 1]) == SumNats(s) + 1
    decreases |s|
  {
    var t := s[k := s[k] + 1];
    if k == |s| - 1 {
      assert t[..|t| - 1] == s[..|s| - 1];
    } else {
      assert t[..|t| - 1] == s[..|s| - 1][k := s[k] + 1];
      SumNatsIncrement(s[..|s| - 1], k);
    }
  }

  lemma {:induction false} SumNatsZero(n: nat)
    ensures SumNats(seq(n, _ => 0)) == 0
  {
    if n > 0 {
      assert seq(n, _ => 0)[..n - 1] == seq(n - 1, _ => 0);
      SumNatsZero(n - 1);
    }
  }
}
