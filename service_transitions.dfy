/** Service-transition network: from each client's date-ordered ward/team
    codes, an n-by-n matrix counts the moves from one service to the next;
    single-record clients are listed apart; the matrix becomes a directed,
    weighted edge list. */
module ServiceTransitions {
  import opened Seqs

  /** The largest code in any client's records, -1 when there are none. */
  function MaxCode(runs: seq<seq<nat>>): (m: int)
    ensures m >= -1
    ensures forall r, j :: 0 <= r < |runs| && 0 <= j < |runs[r]| ==> runs[r][j] <= m
    ensures m >= 0 ==> exists r, j :: 0 <= r < |runs| && 0 <= j < |runs[r]| && runs[r][j] == m
    ensures m == -1 <==> forall r :: 0 <= r < |runs| ==> runs[r] == []
  {
    if runs == [] then -1
    else
      var m0 := MaxCode(runs[..|runs| - 1]);
      var m1 := MaxIn(runs[|runs| - 1]);
      assert forall r :: 0 <= r < |runs| - 1 ==> runs[..|runs| - 1][r] == runs[r];
      if m1 > m0 then m1 else m0
  }

  function MaxIn(run: seq<nat>): (m: int)
    ensures m >= -1
    ensures forall j :: 0 <= j < |run| ==> run[j] <= m
    ensures m >= 0 ==> exists j :: 0 <= j < |run| && run[j] == m
    ensures m == -1 <==> run == []
  {
    if run == [] then -1
    else
      var m0 := MaxIn(run[..|run| - 1]);
      assert forall j :: 0 <= j < |run| - 1 ==> run[..|run| - 1][j] == run[j];
      if run[|run| - 1] > m0 then run[|run| - 1] else m0
  }

  /** `n_wardteams = max(codes) + 1`; `max` of no codes raises ValueError. */
  function TeamCount(runs: seq<seq<nat>>): (r: Result<nat>)
    ensures r.Failure? <==> forall k :: 0 <= k < |runs| ==> runs[k] == []
    ensures r.Success? ==> forall k, j :: 0 <= k < |runs| && 0 <= j < |runs[k]| ==> runs[k][j] < r.value
  {
    var m := MaxCode(runs);
    if m < 0 then
      Failure(ValueError)
    else Success(m + 1)
  }

  /** Moves a -> b among the first `k` consecutive pairs of one client's codes. */
  function PairCount(run: seq<nat>, a: nat, b: nat, k: nat): nat
  {
    if k == 0 then 0
    else PairCount(run, a, b, k - 1) + (if k < |run| && run[k - 1] == a && run[k] == b then 1 else 0)
  }

  /** Moves a -> b counted over the clients `runs`; a client with one record contributes nothing. */
  function TransCount(runs: seq<seq<nat>>, a: nat, b: nat): nat
  {
    if runs == [] then 0
    else
      var run := runs[|runs| - 1];
      TransCount(runs[..|runs| - 1], a, b) + (if |run| > 1 then PairCount(run, a, b, |run| - 1) else 0)
  }

  /** The ids of the clients with a single record, after the placeholder 0. */
  function Singles(runs: seq<seq<nat>>, ids: seq<int>): seq<int>
    requires |runs| == |ids|
  {
    if runs == [] then [0]
    else Singles(runs[..|runs| - 1], ids[..|ids| - 1]) + (if |runs[|runs| - 1]| > 1 then [] else [ids[|ids| - 1]])
  }

  predicate CodesBelow(runs: seq<seq<nat>>, n: nat)
  {
    forall r, j :: 0 <= r < |runs| && 0 <= j < |runs[r]| ==> runs[r][j] < n
  }

  /** The matrix loop: every consecutive pair in a client's records adds one
      to its cell, so each cell holds the number of such moves. */
  method TransitionMatrix(runs: seq<seq<nat>>, ids: seq<int>, n: nat) returns (servMove: array2<int>, singles: seq<int>)
    requires |runs| == |ids|
    requires CodesBelow(runs, n)
    ensures fresh(servMove)
    ensures servMove.Length0 == n && servMove.Length1 == n
    ensures forall a, b :: 0 <= a < n && 0 <= b < n ==> servMove[a, b] == TransCount(runs, a, b)
    ensures singles == Singles(runs, ids)
  {
    servMove := new int[n, n]((_, _) => 0);
    singles := [0];
    for r := 0 to |runs|
      invariant singles == Singles(runs[..r], ids[..r])
      invariant forall a, b :: 0 <= a < n && 0 <= b < n ==> servMove[a, b] == TransCount(runs[..r], a, b)
    {
      var run := runs[r];
      assert runs[..r + 1][..r] == runs[..r] && runs[..r + 1][r] == run;
      assert ids[..r + 1][..r] == ids[..r];
      if |run| > 1 {
        for j := 0 to |run| - 1
          invariant forall a, b :: 0 <= a < n && 0 <= b < n ==>
            servMove[a, b] == TransCount(runs[..r], a, b) + PairCount(run, a, b, j)
        {
          var x, y := run[j], run[j + 1];
          assert x < n && y < n by {
            assert runs[r][j] == x && runs[r][j + 1] == y;
          }
          servMove[x, y] := servMove[x, y] + 1;
        }
      } else {
        singles := singles + [ids[r]];
      }
    }
    assert runs[..|runs|] == runs && ids[..|ids|] == ids;
  }

  /** A row of the edge list: Source, Target, Type, Id, Weight. */
  datatype Edge = Edge(source: nat, target: nat, kind: string, id: nat, weight: int)

  /** The positive cells of column `i`, rows `0 .. j - 1`, as (source, target, count). */
  function ColumnEdges(g: seq<seq<int>>, i: nat, j: nat): seq<(nat, nat, int)>
    requires j <= |g| && forall r :: 0 <= r < |g| ==> i < |g[r]|
  {
    if j == 0 then []
    else ColumnEdges(g, i, j - 1) + (if g[j - 1][i] > 0 then [(j - 1, i, g[j - 1][i])] else [])
  }

  /** The scan with the target column as the outer loop: columns `0 .. i - 1`. */
  function ScanEdges(g: seq<seq<int>>, i: nat): seq<(nat, nat, int)>
    requires forall r :: 0 <= r < |g| ==> i <= |g[r]|
  {
    if i == 0 then [] else ScanEdges(g, i - 1) + ColumnEdges(g, i - 1, |g|)
  }

  /** The matrix as rows. */
  function Rows(m: array2<int>): (g: seq<seq<int>>)
    reads m
    ensures |g| == m.Length0 && forall r :: 0 <= r < m.Length0 ==> |g[r]| == m.Length1
    ensures forall r, c :: 0 <= r < m.Length0 && 0 <= c < m.Length1 ==> g[r][c] == m[r, c]
  {
    seq(m.Length0, r requires 0 <= r < m.Length0 reads m => seq(m.Length1, c requires 0 <= c < m.Length1 reads m => m[r, c]))
  }

  /** The edge-list loop: positive cells, target-major, then the placeholder
      row dropped, type "Directed", ids 0 .. k-1 and the count as weight. */
  method EdgeList(servMove: array2<int>) returns (edges: seq<Edge>)
    requires servMove.Length0 == servMove.Length1
    ensures var spec := ScanEdges(Rows(servMove), servMove.Length0);
      |edges| == |spec|
      && forall k :: 0 <= k < |edges| ==>
        edges[k] == Edge(spec[k].0, spec[k].1, "Directed", k, spec[k].2)
  {
    var n := servMove.Length0;
    ghost var g := Rows(servMove);
    var raw: seq<(nat, nat, int)> := [(0, 0, 0)];
    for i := 0 to n
      invariant raw == [(0, 0, 0)] + ScanEdges(g, i)
    {
      for j := 0 to n
        invariant raw == [(0, 0, 0)] + ScanEdges(g, i) + ColumnEdges(g, i, j)
      {
        if servMove[j, i] > 0 {
          raw := raw + [(j, i, servMove[j, i])];
        }
      }
    }
    raw := raw[1..];
    edges := [];
    for k := 0 to |raw|
      invariant |edges| == k
      invariant forall m :: 0 <= m < k ==> edges[m] == Edge(raw[m].0, raw[m].1, "Directed", m, raw[m].2)
    {
      edges := edges + [Edge(raw[k].0, raw[k].1, "Directed", k, raw[k].2)];
    }
  }

  lemma {:induction false} ColumnEdgesMembers(g: seq<seq<int>>, i: nat, j: nat, e: (nat, nat, int))
    requires j <= |g| && forall r :: 0 <= r < |g| ==> i < |g[r]|
    ensures e in ColumnEdges(g, i, j) <==> e.1 == i && e.0 < j && g[e.0][i] > 0 && e.2 == g[e.0][i]
    decreases j
  {
    if j > 0 {
      ColumnEdgesMembers(g, i, j - 1, e);
    }
  }

  /** An edge (source, target, count) is listed exactly for each positive cell. */
  lemma {:induction false} ScanEdgesMembers(g: seq<seq<int>>, i: nat, e: (nat, nat, int))
    requires forall r :: 0 <= r < |g| ==> i <= |g[r]|
    ensures e in ScanEdges(g, i) <==> e.1 < i && e.0 < |g| && g[e.0][e.1] > 0 && e.2 == g[e.0][e.1]
    decreases i
  {
    if i > 0 {
      ScanEdgesMembers(g, i - 1, e);
      ColumnEdgesMembers(g, i - 1, |g|, e);
    }
  }

  // ---- the matrix total ----

  /** Sum of f(a, b) over a < na, b < nb. */
  function Sum2(f: (nat, nat) -> nat, na: nat, nb: nat): nat
  {
    if na == 0 then 0 else Sum2(f, na - 1, nb) + Sum1(f, na - 1, nb)
  }

  /** Sum of f(a, b) over b < nb. */
  function Sum1(f: (nat, nat) -> nat, a: nat, nb: nat): nat
  {
    if nb == 0 then 0 else Sum1(f, a, nb - 1) + f(a, nb - 1)
  }

  lemma {:induction false} Sum1Add(f: (nat, nat) -> nat, g: (nat, nat) -> nat, h: (nat, nat) -> nat, a: nat, nb: nat)
    requires forall x, y :: h(x, y) == f(x, y) + g(x, y)
    ensures Sum1(h, a, nb) == Sum1(f, a, nb) + Sum1(g, a, nb)
    decreases nb
  {
    if nb > 0 {
      Sum1Add(f, g, h, a, nb - 1);
    }
  }

  lemma {:induction false} Sum2Add(f: (nat, nat) -> nat, g: (nat, nat) -> nat, h: (nat, nat) -> nat, na: nat, nb: nat)
    requires forall x, y :: h(x, y) == f(x, y) + g(x, y)
    ensures Sum2(h, na, nb) == Sum2(f, na, nb) + Sum2(g, na, nb)
    decreases na
  {
    if na > 0 {
      Sum2Add(f, g, h, na - 1, nb);
      Sum1Add(f, g, h, na - 1, nb);
    }
  }

  lemma {:induction false} Sum1Zero(f: (nat, nat) -> nat, a: nat, nb: nat)
    requires forall y :: f(a, y) == 0
    ensures Sum1(f, a, nb) == 0
    decreases nb
  {
    if nb > 0 {
      Sum1Zero(f, a, nb - 1);
    }
  }

  lemma {:induction false} Sum1One(f: (nat, nat) -> nat, a: nat, y0: nat, nb: nat)
    requires forall y :: f(a, y) == (if y == y0 then 1 else 0)
    ensures Sum1(f, a, nb) == (if y0 < nb then 1 else 0)
    decreases nb
  {
    if nb > 0 {
      Sum1One(f, a, y0, nb - 1);
    }
  }

  /** A single cell set to one sums to one over a grid containing it. */
  lemma {:induction false} Sum2One(f: (nat, nat) -> nat, x0: nat, y0: nat, na: nat, nb: nat)
    requires forall x, y :: f(x, y) == (if x == x0 && y == y0 then 1 else 0)
    requires y0 < nb
    ensures Sum2(f, na, nb) == (if x0 < na then 1 else 0)
    decreases na
  {
    if na > 0 {
      Sum2One(f, x0, y0, na - 1, nb);
      if na - 1 == x0 {
        Sum1One(f, na - 1, y0, nb);
      } else {
        Sum1Zero(f, na - 1, nb);
      }
    }
  }

  lemma {:induction false} Sum2Zero(f: (nat, nat) -> nat, na: nat, nb: nat)
    requires forall x, y :: f(x, y) == 0
    ensures Sum2(f, na, nb) == 0
    decreases na
  {
    if na > 0 {
      Sum2Zero(f, na - 1, nb);
      Sum1Zero(f, na - 1, nb);
    }
  }

  /** The moves one client contributes. */
  function Moves(run: seq<nat>): nat
  {
    if |run| > 1 then |run| - 1 else 0
  }

  function TotalMoves(runs: seq<seq<nat>>): nat
  {
    if runs == [] then 0 else TotalMoves(runs[..|runs| - 1]) + Moves(runs[|runs| - 1])
  }

  /** The first `k` pairs of a client's codes add `k` to the grid. */
  lemma {:induction false} PairGridTotal(run: seq<nat>, k: nat, n: nat)
    requires k < |run| || k == 0
    requires forall j :: 0 <= j < |run| ==> run[j] < n
    ensures Sum2((a, b) => PairCount(run, a, b, k), n, n) == k
    decreases k
  {
    if k == 0 {
      Sum2Zero((a, b) => PairCount(run, a, b, 0), n, n);
    } else {
      if k - 1 > 0 {
        PairGridTotal(run, k - 1, n);
      } else {
        Sum2Zero((a, b) => PairCount(run, a, b, 0), n, n);
      }
      var x0, y0 := run[k - 1], run[k];
      var step := (a: nat, b: nat) => if a == x0 && b == y0 then 1 else 0;
      Sum2One(step, x0, y0, n, n);
      Sum2Add((a, b) => PairCount(run, a, b, k - 1), step, (a, b) => PairCount(run, a, b, k), n, n);
    }
  }

  /** The matrix total is the total number of moves: each client with more
      than one record contributes its number of records minus one. */
  lemma {:induction false} MatrixTotal(runs: seq<seq<nat>>, n: nat)
    requires CodesBelow(runs, n)
    ensures Sum2((a, b) => TransCount(runs, a, b), n, n) == TotalMoves(runs)
    decreases |runs|
  {
    if runs == [] {
      Sum2Zero((a, b) => TransCount(runs, a, b), n, n);
    } else {
      var init, run := runs[..|runs| - 1], runs[|runs| - 1];
      assert CodesBelow(init, n) by {
        forall r, j | 0 <= r < |init| && 0 <= j < |init[r]| ensures init[r][j] < n {
          assert init[r] == runs[r];
        }
      }
      MatrixTotal(init, n);
      var last := (a: nat, b: nat) => if |run| > 1 then PairCount(run, a, b, |run| - 1) else 0;
      if |run| > 1 {
        assert forall j :: 0 <= j < |run| ==> run[j] < n by {
          forall j | 0 <= j < |run| ensures run[j] < n {
            assert runs[|runs| - 1][j] == run[j];
          }
        }
        PairGridTotal(run, |run| - 1, n);
        assert forall a, b :: last(a, b) == PairCount(run, a, b, |run| - 1);
        Sum2Add((a, b) => PairCount(run, a, b, |run| - 1), (a, b) => 0,
                last, n, n);
        Sum2Zero((a: nat, b: nat) => 0, n, n);
      } else {
        Sum2Zero(last, n, n);
      }
      Sum2Add((a, b) => TransCount(init, a, b), last, (a, b) => TransCount(runs, a, b), n, n);
    }
  }
}
