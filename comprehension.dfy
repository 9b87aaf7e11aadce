/** The comprehension-to-pipeline expansion for any number of clauses. The macro writes one
    arm per clause count and one `PrependK` type per arity; here a clause list of any length
    is assembled by recursion on its last clause, and the tuple of values bound so far (the
    environment) is a sequence that grows by one value per level. */
module Comprehension {
  import opened Stages
  import opened Prepend
  import opened Macros

  /** One parsed `for v in gen [if filter]*` clause: the generator, which may read every value
      bound by the clauses before it, and the filters in declared order, which read the
      environment including the value this clause binds. */
  datatype Clause<!V> = Clause(gen: seq<V> -> seq<V>, filters: seq<seq<V> -> bool>)

  /** The Prepend adapter for any arity: environment e extended by each value of xs, in order. */
  function Extend<V>(e: seq<V>, xs: seq<V>): (r: seq<seq<V>>)
    ensures |r| == |xs|
    ensures forall i :: 0 <= i < |xs| ==> r[i] == e + [xs[i]]
  {
    Map(x => e + [x], xs)
  }

  /** The closure handed to `flat_map`: run the generator afresh on e and prepend e. */
  function Nest<V>(gen: seq<V> -> seq<V>): seq<V> -> seq<seq<V>>
  {
    e => Extend(e, gen(e))
  }

  /** One level of assembly: flat_map the clause's generator over the surviving outer
      environments, then apply the clause's filters. */
  function Expand<V>(envs: seq<seq<V>>, c: Clause<V>): seq<seq<V>>
  {
    FilterAll(c.filters, FlatMap(Nest(c.gen), envs))
  }

  /** The environments that survive every filter of cs, in enumeration order; each binds
      exactly one value per clause. */
  function Envs<V>(cs: seq<Clause<V>>): seq<seq<V>>
  {
    if cs == [] then [[]] else Expand(Envs(cs[..|cs| - 1]), cs[|cs| - 1])
  }

  /** The whole comprehension: the terminal map over the surviving environments. */
  function Comprehend<V, R>(cs: seq<Clause<V>>, m: seq<V> -> R): (r: seq<R>)
    requires |cs| >= 1
    ensures |r| == |Envs(cs)|
    ensures forall i :: 0 <= i < |r| ==> r[i] == m(Envs(cs)[i])
  {
    Map(m, Envs(cs))
  }

  lemma EnvsSnoc<V>(cs: seq<Clause<V>>, c: Clause<V>)
    ensures Envs(cs + [c]) == Expand(Envs(cs), c)
  {
    assert (cs + [c])[..|cs|] == cs;
  }

  // ---------------------------------------------------------------------------
  // What the pipeline enumerates

  /** Level k of e is right for cs: its value is generated by clause k from the values
      before it, and the values up to it pass the filters of clause k. */
  ghost predicate LevelOk<V>(cs: seq<Clause<V>>, e: seq<V>, k: int)
    requires 0 <= k < |cs| && k < |e|
  {
    e[k] in cs[k].gen(e[..k]) && PassesAll(cs[k].filters, e[..k + 1])
  }

  /** e is a full environment for cs: one value per clause, every level right. */
  ghost predicate Admissible<V>(cs: seq<Clause<V>>, e: seq<V>)
  {
    |e| == |cs| && forall k :: 0 <= k < |cs| ==> LevelOk(cs, e, k)
  }

  lemma InExtend<V>(p: seq<V>, xs: seq<V>, e: seq<V>)
    ensures e in Extend(p, xs) <==> |e| == |p| + 1 && e[..|p|] == p && e[|p|] in xs
  {
    if e in Extend(p, xs) {
      var i :| 0 <= i < |xs| && Extend(p, xs)[i] == e;
      assert e[..|p|] == p;
    }
    if |e| == |p| + 1 && e[..|p|] == p && e[|p|] in xs {
      var i :| 0 <= i < |xs| && xs[i] == e[|p|];
      assert e == p + [xs[i]];
    }
  }

  /** One more level: e survives cs + [c] exactly when its prefix survives cs, its last value
      is generated by c from that prefix, and e passes c's filters. */
  lemma InExpand<V>(envs: seq<seq<V>>, c: Clause<V>, e: seq<V>)
    ensures e in Expand(envs, c) <==>
            |e| >= 1 && e[..|e| - 1] in envs && e[|e| - 1] in c.gen(e[..|e| - 1])
            && PassesAll(c.filters, e)
  {
    InFilterAll(c.filters, FlatMap(Nest(c.gen), envs), e);
    InFlatMap(Nest(c.gen), envs, e);
    if e in FlatMap(Nest(c.gen), envs) {
      var p :| p in envs && e in Nest(c.gen)(p);
      InExtend(p, c.gen(p), e);
    }
    if |e| >= 1 && e[..|e| - 1] in envs && e[|e| - 1] in c.gen(e[..|e| - 1]) {
      var p := e[..|e| - 1];
      InExtend(p, c.gen(p), e);
    }
  }

  lemma SplitLast<T>(s: seq<T>)
    requires s != []
    ensures s == s[..|s| - 1] + [s[|s| - 1]]
  {
  }

  /** The earlier levels of an environment do not look at the values after them. */
  lemma LevelOkPrefix<V>(init: seq<Clause<V>>, c: Clause<V>, e: seq<V>, k: int)
    requires |e| == |init| + 1 && 0 <= k < |init|
    ensures LevelOk(init + [c], e, k) == LevelOk(init, e[..|init|], k)
  {
    var p := e[..|init|];
    assert (init + [c])[k] == init[k];
    assert p[k] == e[k] && p[..k] == e[..k] && p[..k + 1] == e[..k + 1];
  }

  /** Admissibility for one more clause, level by level. */
  lemma AdmissibleSnoc<V>(init: seq<Clause<V>>, c: Clause<V>, e: seq<V>)
    requires |e| == |init| + 1
    ensures Admissible(init + [c], e) <==>
            Admissible(init, e[..|init|]) && e[|init|] in c.gen(e[..|init|]) && PassesAll(c.filters, e)
  {
    var n := |init|;
    forall k | 0 <= k < n ensures LevelOk(init + [c], e, k) == LevelOk(init, e[..n], k) {
      LevelOkPrefix(init, c, e, k);
    }
    assert (init + [c])[n] == c && e[..n + 1] == e;
    assert LevelOk(init + [c], e, n) <==> e[n] in c.gen(e[..n]) && PassesAll(c.filters, e);
  }

  /** The pipeline yields exactly the admissible environments. */
  lemma {:induction false} EnvsMembers<V>(cs: seq<Clause<V>>, e: seq<V>)
    ensures e in Envs(cs) <==> Admissible(cs, e)
    decreases |cs|, 1
  {
    if cs == [] {
      assert Admissible(cs, e) <==> e == [];
    } else {
      SplitLast(cs);
      EnvsMembersSnoc(cs[..|cs| - 1], cs[|cs| - 1], e);
    }
  }

  lemma {:induction false} EnvsMembersSnoc<V>(init: seq<Clause<V>>, c: Clause<V>, e: seq<V>)
    ensures e in Envs(init + [c]) <==> Admissible(init + [c], e)
    decreases |init| + 1, 0
  {
    EnvsSnoc(init, c);
    InExpand(Envs(init), c, e);
    if |e| == |init| + 1 {
      EnvsMembers(init, e[..|init|]);
      AdmissibleSnoc(init, c, e);
    } else if e in Envs(init + [c]) {
      EnvsMembers(init, e[..|e| - 1]);
    }
  }

  // ---------------------------------------------------------------------------
  // Order: outer values vary slowest

  /** The outer environments' order is kept: the tuples grown from an earlier outer
      environment all come before those grown from a later one. */
  lemma ExpandAppend<V>(a: seq<seq<V>>, b: seq<seq<V>>, c: Clause<V>)
    ensures Expand(a + b, c) == Expand(a, c) + Expand(b, c)
  {
    FlatMapAppend(Nest(c.gen), a, b);
    FilterAllAppend(c.filters, FlatMap(Nest(c.gen), a), FlatMap(Nest(c.gen), b));
  }

  /** An outer environment whose generator yields nothing contributes nothing, and the
      enumeration carries on with the next outer environment. */
  lemma ExpandSkipsEmpty<V>(a: seq<seq<V>>, e: seq<V>, b: seq<seq<V>>, c: Clause<V>)
    requires c.gen(e) == []
    ensures Expand(a + [e] + b, c) == Expand(a + b, c)
  {
    assert Nest(c.gen)(e) == [];
    FlatMapSkipsEmpty(Nest(c.gen), a, e, b);
  }

  /** A level's generator is only ever run on environments that survived every earlier
      filter: changing it anywhere else changes nothing. */
  lemma GeneratorOnlyOnSurvivors<V>(cs: seq<Clause<V>>, c: Clause<V>, d: Clause<V>)
    requires c.filters == d.filters
    requires forall e :: e in Envs(cs) ==> c.gen(e) == d.gen(e)
    ensures Envs(cs + [c]) == Envs(cs + [d])
  {
    EnvsSnoc(cs, c);
    EnvsSnoc(cs, d);
    FlatMapCongruence(Nest(c.gen), Nest(d.gen), Envs(cs));
  }

  /** a comes before b in lexicographic order. */
  predicate LexLess(a: seq<int>, b: seq<int>)
  {
    exists k :: 0 <= k < |a| && k < |b| && a[..k] == b[..k] && a[k] < b[k]
  }

  predicate LexSorted(s: seq<seq<int>>)
  {
    forall i, j :: 0 <= i < j < |s| ==> LexLess(s[i], s[j])
  }

  predicate Increasing(s: seq<int>)
  {
    forall i, j :: 0 <= i < j < |s| ==> s[i] < s[j]
  }

  lemma LexLessExtend(a: seq<int>, b: seq<int>, x: int, y: int)
    requires LexLess(a, b)
    ensures LexLess(a + [x], b + [y])
  {
    var k :| 0 <= k < |a| && k < |b| && a[..k] == b[..k] && a[k] < b[k];
    assert (a + [x])[..k] == a[..k] && (b + [y])[..k] == b[..k];
  }

  lemma LexSortedAppend(s: seq<seq<int>>, t: seq<seq<int>>)
    requires LexSorted(s) && LexSorted(t)
    requires forall i, j :: 0 <= i < |s| && 0 <= j < |t| ==> LexLess(s[i], t[j])
    ensures LexSorted(s + t)
  {
  }

  /** Filtering keeps a lexicographically sorted sequence sorted. */
  lemma {:induction false} FilterLexSorted(p: seq<int> -> bool, s: seq<seq<int>>)
    requires LexSorted(s)
    ensures LexSorted(Filter(p, s))
  {
    if s != [] {
      FilterLexSorted(p, s[1..]);
      var rest := Filter(p, s[1..]);
      forall j | 0 <= j < |rest| ensures LexLess(s[0], rest[j]) {
        InFilter(p, s[1..], rest[j]);
        var i :| 0 <= i < |s[1..]| && s[1..][i] == rest[j];
        assert s[1 + i] == rest[j];
      }
    }
  }

  lemma {:induction false} FilterAllLexSorted(ps: seq<seq<int> -> bool>, s: seq<seq<int>>)
    requires LexSorted(s)
    ensures LexSorted(FilterAll(ps, s))
  {
    if ps != [] {
      FilterLexSorted(ps[0], s);
      FilterAllLexSorted(ps[1..], Filter(ps[0], s));
    }
  }

  /** One outer environment grown by an increasing inner sequence gives sorted tuples. */
  lemma ExtendLexSorted(e: seq<int>, xs: seq<int>)
    requires Increasing(xs)
    ensures LexSorted(Extend(e, xs))
  {
    var r := Extend(e, xs);
    forall i, j | 0 <= i < j < |r| ensures LexLess(r[i], r[j]) {
      assert r[i][..|e|] == e == r[j][..|e|];
      assert r[i][|e|] == xs[i] && r[j][|e|] == xs[j];
    }
  }

  /** A tuple grown from the first environment comes before every tuple grown from the
      environments after it. */
  lemma HeadBeforeTail(gen: seq<int> -> seq<int>, envs: seq<seq<int>>, x: int, t: seq<int>)
    requires envs != [] && LexSorted(envs)
    requires t in FlatMap(Nest(gen), envs[1..])
    ensures LexLess(envs[0] + [x], t)
  {
    InFlatMap(Nest(gen), envs[1..], t);
    var e1 :| e1 in envs[1..] && t in Nest(gen)(e1);
    InExtend(e1, gen(e1), t);
    var l :| 0 <= l < |envs[1..]| && envs[1..][l] == e1;
    assert envs[1 + l] == e1;
    assert t == e1 + [t[|e1|]];
    LexLessExtend(envs[0], e1, x, t[|e1|]);
  }

  /** Growing a lexicographically sorted sequence of environments by increasing inner
      sequences, outer environment by outer environment, keeps it sorted. */
  lemma {:induction false} NestLexSorted(gen: seq<int> -> seq<int>, envs: seq<seq<int>>)
    requires forall e :: Increasing(gen(e))
    requires LexSorted(envs)
    ensures LexSorted(FlatMap(Nest(gen), envs))
  {
    if envs != [] {
      var head := Extend(envs[0], gen(envs[0]));
      var tail := FlatMap(Nest(gen), envs[1..]);
      assert FlatMap(Nest(gen), envs) == head + tail;
      ExtendLexSorted(envs[0], gen(envs[0]));
      NestLexSorted(gen, envs[1..]);
      forall i, j | 0 <= i < |head| && 0 <= j < |tail| ensures LexLess(head[i], tail[j]) {
        HeadBeforeTail(gen, envs, gen(envs[0])[i], tail[j]);
      }
      LexSortedAppend(head, tail);
    }
  }

  /** Enumeration is in strict lexicographic order of the bound values, the outermost
      varying slowest, whenever every generator yields strictly increasing values (as
      `range` does). */
  lemma {:induction false} EnvsLexSorted(cs: seq<Clause<int>>)
    requires forall k, e :: 0 <= k < |cs| ==> Increasing(cs[k].gen(e))
    ensures LexSorted(Envs(cs))
    decreases |cs|, 1
  {
    if cs != [] {
      SplitLast(cs);
      EnvsLexSortedSnoc(cs[..|cs| - 1], cs[|cs| - 1]);
    }
  }

  lemma {:induction false} EnvsLexSortedSnoc(init: seq<Clause<int>>, c: Clause<int>)
    requires forall k, e :: 0 <= k < |init| ==> Increasing(init[k].gen(e))
    requires forall e :: Increasing(c.gen(e))
    ensures LexSorted(Envs(init + [c]))
    decreases |init| + 1, 0
  {
    EnvsSnoc(init, c);
    EnvsLexSorted(init);
    NestLexSorted(c.gen, Envs(init));
    FilterAllLexSorted(c.filters, FlatMap(Nest(c.gen), Envs(init)));
  }

  // ---------------------------------------------------------------------------
  // Agreement with the macro's arms

  /** A function of an environment, read as a function of the macro's 1-, 2- or 3-tuple. */
  function Lower1<V, R>(f: seq<V> -> R): V -> R
  {
    x => f([x])
  }

  function Lower2<V, R>(f: seq<V> -> R): ((V, V)) -> R
  {
    (t: (V, V)) => f([t.0, t.1])
  }

  function Lower3<V, R>(f: seq<V> -> R): ((V, V, V)) -> R
  {
    (t: (V, V, V)) => f([t.0, t.1, t.2])
  }

  /** The macro's tuples as environments. */
  function Env1<V>(x: V): seq<V>
  {
    [x]
  }

  function Env2<V>(t: (V, V)): seq<V>
  {
    [t.0, t.1]
  }

  function Env3<V>(t: (V, V, V)): seq<V>
  {
    [t.0, t.1, t.2]
  }

  /** `prepend1(v1, gen2)` is the generic adapter on the environment [v1]. */
  lemma Nest1Agrees<V>(gen: seq<V> -> seq<V>, x: V)
    ensures Map(Env2, Nest1(Lower1(gen))(x)) == Nest(gen)(Env1(x))
  {
    var g := gen([x]);
    var lhs, rhs := Map(Env2, Prepend1Seq(x, g)), Extend([x], g);
    forall i | 0 <= i < |g| ensures lhs[i] == rhs[i] {
      assert Prepend1Seq(x, g)[i] == (x, g[i]);
    }
    assert lhs == rhs;
  }

  /** `prepend2(v1, v2, gen3)` is the generic adapter on the environment [v1, v2]. */
  lemma Nest2Agrees<V>(gen: seq<V> -> seq<V>, t: (V, V))
    ensures Map(Env3, Nest2(Lower2(gen))(t)) == Nest(gen)(Env2(t))
  {
    var g := gen([t.0, t.1]);
    var lhs, rhs := Map(Env3, Prepend2Seq(t.0, t.1, g)), Extend([t.0, t.1], g);
    forall i | 0 <= i < |g| ensures lhs[i] == rhs[i] {
      assert Prepend2Seq(t.0, t.1, g)[i] == (t.0, t.1, g[i]);
    }
    assert lhs == rhs;
  }

  /** Reading filters through the 1-tuple. */
  lemma FilterAllLower1<V>(fs: seq<seq<V> -> bool>, z: seq<V>)
    ensures FilterAll(fs, Map(Env1, z)) == Map(Env1, FilterAll(Map(Lower1, fs), z))
  {
    FilterAllMap(fs, Map(Lower1, fs), Env1, z);
  }

  /** Reading filters through the 2-tuple. */
  lemma FilterAllLower2<V>(fs: seq<seq<V> -> bool>, z: seq<(V, V)>)
    ensures FilterAll(fs, Map(Env2, z)) == Map(Env2, FilterAll(Map(Lower2, fs), z))
  {
    FilterAllMap(fs, Map(Lower2, fs), Env2, z);
  }

  /** Reading filters through the 3-tuple. */
  lemma FilterAllLower3<V>(fs: seq<seq<V> -> bool>, z: seq<(V, V, V)>)
    ensures FilterAll(fs, Map(Env3, z)) == Map(Env3, FilterAll(Map(Lower3, fs), z))
  {
    FilterAllMap(fs, Map(Lower3, fs), Env3, z);
  }

  /** The first level: the generator run on the empty environment. */
  lemma NestRoot<V>(gen: seq<V> -> seq<V>)
    ensures FlatMap(Nest(gen), [[]]) == Map(Env1, gen([]))
  {
    var g := gen([]);
    forall i | 0 <= i < |g| ensures Extend([], g)[i] == Map(Env1, g)[i] {
      assert [] + [g[i]] == [g[i]];
    }
    assert Extend([], g) == Map(Env1, g);
    FlatMapSingle(Nest(gen), []);
  }

  /** The second level: `flat_map` with `prepend1` is `flat_map` with the generic adapter. */
  lemma NestLevel2<V>(gen: seq<V> -> seq<V>, l1: seq<V>)
    ensures FlatMap(Nest(gen), Map(Env1, l1)) == Map(Env2, FlatMap(Nest1(Lower1(gen)), l1))
  {
    var h := (a: V) => Map(Env2, Nest1(Lower1(gen))(a));
    forall x | x in l1 ensures h(x) == Nest(gen)(Env1(x)) {
      Nest1Agrees(gen, x);
    }
    FlatMapMap(Nest(gen), Env1, h, l1);
    MapFlatMap(Env2, Nest1(Lower1(gen)), h, l1);
  }

  /** The third level: `flat_map` with `prepend2` is `flat_map` with the generic adapter. */
  lemma NestLevel3<V>(gen: seq<V> -> seq<V>, l2: seq<(V, V)>)
    ensures FlatMap(Nest(gen), Map(Env2, l2)) == Map(Env3, FlatMap(Nest2(Lower2(gen)), l2))
  {
    var h := (t: (V, V)) => Map(Env3, Nest2(Lower2(gen))(t));
    forall t | t in l2 ensures h(t) == Nest(gen)(Env2(t)) {
      Nest2Agrees(gen, t);
    }
    FlatMapMap(Nest(gen), Env2, h, l2);
    MapFlatMap(Env3, Nest2(Lower2(gen)), h, l2);
  }

  lemma SnocDisplay<T>(s: seq<T>, x: T)
    ensures |s| == 0 ==> s + [x] == [x]
    ensures |s| == 1 ==> s + [x] == [s[0], x]
    ensures |s| == 2 ==> s + [x] == [s[0], s[1], x]
  {
  }

  lemma EnvsOne<V>(c1: Clause<V>)
    ensures Envs([c1]) == FilterAll(c1.filters, FlatMap(Nest(c1.gen), [[]]))
  {
    SnocDisplay([], c1);
    EnvsSnoc([], c1);
  }

  lemma EnvsTwo<V>(c1: Clause<V>, c2: Clause<V>)
    ensures Envs([c1, c2]) == Expand(Envs([c1]), c2)
  {
    SnocDisplay([c1], c2);
    EnvsSnoc([c1], c2);
  }

  lemma EnvsThree<V>(c1: Clause<V>, c2: Clause<V>, c3: Clause<V>)
    ensures Envs([c1, c2, c3]) == Expand(Envs([c1, c2]), c3)
  {
    SnocDisplay([c1, c2], c3);
    EnvsSnoc([c1, c2], c3);
  }

  lemma Level1Agrees<V>(c1: Clause<V>)
    ensures Envs([c1]) == Map(Env1, Level1(c1.gen([]), Map(Lower1, c1.filters)))
  {
    EnvsOne(c1);
    NestRoot(c1.gen);
    FilterAllLower1(c1.filters, c1.gen([]));
  }

  lemma Level2Agrees<V>(c1: Clause<V>, c2: Clause<V>)
    ensures Envs([c1, c2]) ==
            Map(Env2, Level2(c1.gen([]), Map(Lower1, c1.filters), Lower1(c2.gen), Map(Lower2, c2.filters)))
  {
    var l1 := Level1(c1.gen([]), Map(Lower1, c1.filters));
    EnvsTwo(c1, c2);
    Level1Agrees(c1);
    NestLevel2(c2.gen, l1);
    FilterAllLower2(c2.filters, FlatMap(Nest1(Lower1(c2.gen)), l1));
  }

  lemma Level3Agrees<V>(c1: Clause<V>, c2: Clause<V>, c3: Clause<V>)
    ensures Envs([c1, c2, c3]) ==
            Map(Env3, Level3(c1.gen([]), Map(Lower1, c1.filters), Lower1(c2.gen), Map(Lower2, c2.filters),
                             Lower2(c3.gen), Map(Lower3, c3.filters)))
  {
    var l2 := Level2(c1.gen([]), Map(Lower1, c1.filters), Lower1(c2.gen), Map(Lower2, c2.filters));
    EnvsThree(c1, c2, c3);
    Level2Agrees(c1, c2);
    NestLevel3(c3.gen, l2);
    FilterAllLower3(c3.filters, FlatMap(Nest2(Lower2(c3.gen)), l2));
  }

  /** With one clause, the general assembly is the macro's first arm. */
  lemma Agrees1<V, R>(c1: Clause<V>, m: seq<V> -> R)
    ensures Comprehend([c1], m) == Arm1(c1.gen([]), Map(Lower1, c1.filters), Lower1(m))
  {
    Level1Agrees(c1);
    MapMap(Env1, m, Lower1(m), Level1(c1.gen([]), Map(Lower1, c1.filters)));
  }

  /** With two clauses, the general assembly is the macro's second arm. */
  lemma Agrees2<V, R>(c1: Clause<V>, c2: Clause<V>, m: seq<V> -> R)
    ensures Comprehend([c1, c2], m) ==
            Arm2(c1.gen([]), Map(Lower1, c1.filters), Lower1(c2.gen), Map(Lower2, c2.filters), Lower2(m))
  {
    Level2Agrees(c1, c2);
    MapMap(Env2, m, Lower2(m),
           Level2(c1.gen([]), Map(Lower1, c1.filters), Lower1(c2.gen), Map(Lower2, c2.filters)));
  }

  /** With three clauses, the general assembly is the macro's third arm. */
  lemma Agrees3<V, R>(c1: Clause<V>, c2: Clause<V>, c3: Clause<V>, m: seq<V> -> R)
    ensures Comprehend([c1, c2, c3], m) ==
            Arm3(c1.gen([]), Map(Lower1, c1.filters), Lower1(c2.gen), Map(Lower2, c2.filters),
                 Lower2(c3.gen), Map(Lower3, c3.filters), Lower3(m))
  {
    Level3Agrees(c1, c2, c3);
    MapMap(Env3, m, Lower3(m),
           Level3(c1.gen([]), Map(Lower1, c1.filters), Lower1(c2.gen), Map(Lower2, c2.filters),
                  Lower2(c3.gen), Map(Lower3, c3.filters)));
  }
}
