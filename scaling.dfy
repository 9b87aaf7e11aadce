/** The expansion at any depth: n clauses, each drawing from `range(0, d)` with no filter,
    enumerate all d^n environments in lexicographic order, from all zeros to all d - 1. */
module Scaling {
  import opened Stages
  import opened Comprehension

  /** `for v in range(0, d)`, a generator that ignores the outer values. */
  function GridClause(d: nat): Clause<int>
  {
    Clause(e => Range(0, d), [])
  }

  /** cs is n such clauses. */
  ghost predicate IsGrid(cs: seq<Clause<int>>, d: nat)
  {
    forall k :: 0 <= k < |cs| ==> cs[k] == GridClause(d)
  }

  function Fill(n: nat, v: int): (r: seq<int>)
    ensures |r| == n
    ensures forall i :: 0 <= i < n ==> r[i] == v
  {
    if n == 0 then [] else Fill(n - 1, v) + [v]
  }

  function Pow(d: nat, n: nat): (r: nat)
    ensures d >= 1 ==> r >= 1
  {
    if n == 0 then 1 else d * Pow(d, n - 1)
  }

  /** Flattening inner sequences that all have length k multiplies the length by k. */
  lemma {:induction false} FlatMapUniform<A, B>(f: A -> seq<B>, s: seq<A>, k: nat)
    requires forall x :: x in s ==> |f(x)| == k
    ensures |FlatMap(f, s)| == k * |s|
  {
    if s != [] {
      assert forall x :: x in s[1..] ==> x in s;
      FlatMapUniform(f, s[1..], k);
      assert k * |s| == k + k * |s[1..]|;
    }
  }

  /** The last element of a flattening comes from the last outer element. */
  lemma FlatMapLast<A, B>(f: A -> seq<B>, s: seq<A>)
    requires s != [] && f(s[|s| - 1]) != []
    ensures |FlatMap(f, s)| >= |f(s[|s| - 1])|
    ensures FlatMap(f, s)[|FlatMap(f, s)| - 1] == f(s[|s| - 1])[|f(s[|s| - 1])| - 1]
  {
    var n := |s|;
    assert s == s[..n - 1] + [s[n - 1]];
    FlatMapAppend(f, s[..n - 1], [s[n - 1]]);
    FlatMapSingle(f, s[n - 1]);
  }

  /** One more unfiltered level over range(0, d). */
  lemma GridSnoc(cs: seq<Clause<int>>, d: nat)
    requires cs != [] && IsGrid(cs, d)
    ensures IsGrid(cs[..|cs| - 1], d)
    ensures Envs(cs) == FlatMap(Nest(GridClause(d).gen), Envs(cs[..|cs| - 1]))
  {
    assert cs[|cs| - 1] == GridClause(d);
  }

  /** One unfiltered level over range(0, d): d environments per outer one, the first grown
      from the first outer environment by 0, the last from the last by d - 1. */
  lemma GridLevel(outer: seq<seq<int>>, d: nat)
    requires outer != [] && d >= 1
    ensures |FlatMap(Nest(GridClause(d).gen), outer)| == d * |outer|
    ensures FlatMap(Nest(GridClause(d).gen), outer)[0] == outer[0] + [0]
    ensures FlatMap(Nest(GridClause(d).gen), outer)[d * |outer| - 1] == outer[|outer| - 1] + [d - 1]
  {
    GridLevelLength(outer, d);
    GridLevelFirst(outer, d);
    GridLevelLast(outer, d);
  }

  lemma GridLevelLength(outer: seq<seq<int>>, d: nat)
    ensures |FlatMap(Nest(GridClause(d).gen), outer)| == d * |outer|
  {
    var f := Nest(GridClause(d).gen);
    forall e | e in outer ensures |f(e)| == d {
    }
    FlatMapUniform(f, outer, d);
  }

  lemma GridLevelFirst(outer: seq<seq<int>>, d: nat)
    requires outer != [] && d >= 1
    ensures |FlatMap(Nest(GridClause(d).gen), outer)| >= 1
    ensures FlatMap(Nest(GridClause(d).gen), outer)[0] == outer[0] + [0]
  {
    var f := Nest(GridClause(d).gen);
    assert f(outer[0]) == Extend(outer[0], Range(0, d));
    assert FlatMap(f, outer) == f(outer[0]) + FlatMap(f, outer[1..]);
  }

  lemma GridLevelLast(outer: seq<seq<int>>, d: nat)
    requires outer != [] && d >= 1
    ensures |FlatMap(Nest(GridClause(d).gen), outer)| >= 1
    ensures FlatMap(Nest(GridClause(d).gen), outer)[|FlatMap(Nest(GridClause(d).gen), outer)| - 1]
            == outer[|outer| - 1] + [d - 1]
  {
    var f := Nest(GridClause(d).gen);
    assert f(outer[|outer| - 1]) == Extend(outer[|outer| - 1], Range(0, d));
    FlatMapLast(f, outer);
  }

  /** The same level, read on the environments of n - 1 clauses. */
  lemma GridStep(outer: seq<seq<int>>, all: seq<seq<int>>, n: nat, d: nat)
    requires n >= 1 && d >= 1 && outer != []
    requires all == FlatMap(Nest(GridClause(d).gen), outer)
    requires outer[0] == Fill(n - 1, 0) && outer[|outer| - 1] == Fill(n - 1, d - 1)
    ensures |all| == d * |outer|
    ensures all[0] == Fill(n, 0) && all[d * |outer| - 1] == Fill(n, d - 1)
  {
    GridLevel(outer, d);
    assert Fill(n - 1, 0) + [0] == Fill(n, 0);
    assert Fill(n - 1, d - 1) + [d - 1] == Fill(n, d - 1);
  }

  /** d^n environments, the first all zeros and the last all d - 1. */
  lemma {:induction false} GridEnvs(cs: seq<Clause<int>>, d: nat)
    requires IsGrid(cs, d) && d >= 1
    ensures |Envs(cs)| == Pow(d, |cs|)
    ensures Envs(cs)[0] == Fill(|cs|, 0)
    ensures Envs(cs)[Pow(d, |cs|) - 1] == Fill(|cs|, d - 1)
  {
    if cs == [] {
      assert Fill(0, 0) == [] == Fill(0, d - 1);
    } else {
      GridSnoc(cs, d);
      GridEnvs(cs[..|cs| - 1], d);
      GridStep(Envs(cs[..|cs| - 1]), Envs(cs), |cs|, d);
    }
  }

  /** The second environment differs from the first in the innermost value only. */
  lemma GridSecond(cs: seq<Clause<int>>, d: nat)
    requires IsGrid(cs, d) && cs != [] && d >= 2
    ensures |Envs(cs)| >= 2
    ensures Envs(cs)[1] == Fill(|cs| - 1, 0) + [1]
  {
    GridSnoc(cs, d);
    GridEnvs(cs[..|cs| - 1], d);
    GridSecondStep(Envs(cs[..|cs| - 1]), Envs(cs), |cs|, d);
  }

  lemma GridSecondStep(outer: seq<seq<int>>, all: seq<seq<int>>, n: nat, d: nat)
    requires n >= 1 && d >= 2 && outer != []
    requires all == FlatMap(Nest(GridClause(d).gen), outer)
    requires outer[0] == Fill(n - 1, 0)
    ensures |all| >= 2 && all[1] == Fill(n - 1, 0) + [1]
  {
    var f := Nest(GridClause(d).gen);
    assert all == f(outer[0]) + FlatMap(f, outer[1..]);
  }

  /** The enumeration is lexicographic, outermost value slowest. */
  lemma GridLexSorted(cs: seq<Clause<int>>, d: nat)
    requires IsGrid(cs, d)
    ensures LexSorted(Envs(cs))
  {
    EnvsLexSorted(cs);
  }

  /** Six clauses over range(0, 5): 15625 environments in lexicographic order, the first
      (0,0,0,0,0,0), the second (0,0,0,0,0,1) and the last (4,4,4,4,4,4). */
  lemma SixClauses(cs: seq<Clause<int>>)
    requires cs == [GridClause(5), GridClause(5), GridClause(5), GridClause(5), GridClause(5), GridClause(5)]
    ensures |Envs(cs)| == 15625
    ensures Envs(cs)[0] == [0, 0, 0, 0, 0, 0]
    ensures Envs(cs)[1] == [0, 0, 0, 0, 0, 1]
    ensures Envs(cs)[15624] == [4, 4, 4, 4, 4, 4]
    ensures LexSorted(Envs(cs))
  {
    assert IsGrid(cs, 5);
    GridEnvs(cs, 5);
    GridSecond(cs, 5);
    GridLexSorted(cs, 5);
    assert Pow(5, 6) == 15625;
    assert Fill(6, 0) == [0, 0, 0, 0, 0, 0];
    assert Fill(5, 0) + [1] == [0, 0, 0, 0, 0, 1];
    assert Fill(6, 4) == [4, 4, 4, 4, 4, 4];
  }
}
