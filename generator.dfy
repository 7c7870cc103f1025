/** The counting generator and the conventional function it is contrasted
    with: the generator keeps `count` between `next()` calls, the function
    starts again from 0 on every call. */
module Generator {

  /** An instance of `keep_count_generator()`, its suspended local `count`
      as a field. */
  class KeepCount {
    var count: int

    constructor ()
      ensures count == 0
    {
      count := 0;
    }

    /** `next(gen)`: one more turn of the `while True` loop, up to `yield`. */
    method Next() returns (v: int)
      modifies this
      ensures count == old(count) + 1 && v == count
    {
      count := count + 1;
      v := count;
    }
  }

  /** `k` calls of `next` on a fresh generator give 1, 2, ..., k. */
  method DrawFromFresh(k: nat) returns (values: seq<int>)
    ensures |values| == k && forall i :: 0 <= i < k ==> values[i] == i + 1
  {
    var gen := new KeepCount();
    values := [];
    for i := 0 to k
      invariant gen.count == i && |values| == i
      invariant forall j :: 0 <= j < i ==> values[j] == j + 1
    {
      var v := gen.Next();
      values := values + [v];
    }
  }

  /** A second instance counts from 1 again, whatever the first has drawn. */
  method TwoInstances(k: nat) returns (first: seq<int>, second: int)
    ensures |first| == k && forall i :: 0 <= i < k ==> first[i] == i + 1
    ensures second == 1
  {
    var g1 := new KeepCount();
    first := [];
    for i := 0 to k
      invariant g1.count == i && |first| == i
      invariant forall j :: 0 <= j < i ==> first[j] == j + 1
    {
      var v := g1.Next();
      first := first + [v];
    }
    var g2 := new KeepCount();
    second := g2.Next();
  }

  /** `conventional_keep_count`: the `return` inside the first iteration of
      its `while True` ends the call, so the loop is its single pass here and
      every call gives 1. */
  method ConventionalKeepCount() returns (r: int)
    ensures r == 1
  {
    var count := 0;
    count := count + 1;
    return count;
  }

  /** The script's five `next` calls print 1 to 5; the five conventional
      calls print 1 five times. */
  method Script() returns (fromGenerator: seq<int>, fromFunction: seq<int>)
    ensures fromGenerator == [1, 2, 3, 4, 5]
    ensures fromFunction == [1, 1, 1, 1, 1]
  {
    fromGenerator := DrawFromFresh(5);
    fromFunction := [];
    for i := 0 to 5
      invariant fromFunction == seq(i, _ => 1)
    {
      var a := ConventionalKeepCount();
      fromFunction := fromFunction + [a];
    }
  }
}
