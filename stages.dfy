/** The iterator adapters a comprehension pipeline is assembled from (`range`, `.map`,
    `.filter`, `.flat_map`), each modelled by the sequence it yields once fully drained,
    together with the algebra the pipeline's correctness rests on. */
module Stages {

  /** `range(lo, hi)`: lo, lo + 1, ..., hi - 1, and nothing when lo >= hi. */
  function Range(lo: int, hi: int): (r: seq<int>)
    decreases hi - lo
    ensures |r| == if lo < hi then hi - lo else 0
    ensures forall i :: 0 <= i < |r| ==> r[i] == lo + i
  {
    if lo < hi then [lo] + Range(lo + 1, hi) else []
  }

  /** `.map(f)`: f applied to every element in order; nothing is dropped or skipped. */
  function Map<A, B>(f: A -> B, s: seq<A>): (r: seq<B>)
    ensures |r| == |s|
    ensures forall i :: 0 <= i < |s| ==> r[i] == f(s[i])
  {
    if s == [] then [] else [f(s[0])] + Map(f, s[1..])
  }

  /** `.filter(p)`: the elements of s that satisfy p, in their original order. */
  function Filter<A>(p: A -> bool, s: seq<A>): (r: seq<A>)
    ensures |r| <= |s|
    ensures forall i :: 0 <= i < |r| ==> p(r[i])
  {
    if s == [] then []
    else if p(s[0]) then [s[0]] + Filter(p, s[1..])
    else Filter(p, s[1..])
  }

  /** x passes every predicate of ps (a left-to-right short-circuit AND). */
  predicate PassesAll<A>(ps: seq<A -> bool>, x: A)
  {
    forall k :: 0 <= k < |ps| ==> ps[k](x)
  }

  /** A chain `.filter(ps[0]).filter(ps[1])...`, applied in declared order. */
  function FilterAll<A>(ps: seq<A -> bool>, s: seq<A>): (r: seq<A>)
    ensures |r| <= |s|
  {
    if ps == [] then s else FilterAll(ps[1..], Filter(ps[0], s))
  }

  /** `.flat_map(f)`: the concatenation, in the order of s, of f(x) for each x of s. */
  function FlatMap<A, B>(f: A -> seq<B>, s: seq<A>): seq<B>
  {
    if s == [] then [] else f(s[0]) + FlatMap(f, s[1..])
  }

  // ---------------------------------------------------------------------------
  // Membership

  lemma InMap<A, B>(f: A -> B, s: seq<A>, y: B)
    ensures y in Map(f, s) <==> exists x :: x in s && y == f(x)
  {
    if y in Map(f, s) {
      var i :| 0 <= i < |s| && Map(f, s)[i] == y;
      assert s[i] in s;
    }
  }

  /** Filtering keeps exactly the elements that satisfy the predicate. */
  lemma {:induction false} InFilter<A>(p: A -> bool, s: seq<A>, x: A)
    ensures x in Filter(p, s) <==> x in s && p(x)
  {
    if s != [] {
      InFilter(p, s[1..], x);
      assert x in s <==> x == s[0] || x in s[1..];
    }
  }

  /** A filter chain keeps exactly the elements that pass every predicate. */
  lemma {:induction false} InFilterAll<A>(ps: seq<A -> bool>, s: seq<A>, x: A)
    ensures x in FilterAll(ps, s) <==> x in s && PassesAll(ps, x)
  {
    if ps != [] {
      InFilter(ps[0], s, x);
      InFilterAll(ps[1..], Filter(ps[0], s), x);
      if PassesAll(ps, x) {
        assert forall k :: 0 <= k < |ps[1..]| ==> ps[1..][k] == ps[k + 1];
      }
      if ps[0](x) && PassesAll(ps[1..], x) {
        forall k | 0 <= k < |ps| ensures ps[k](x) {
          if k > 0 { assert ps[k] == ps[1..][k - 1]; }
        }
      }
    }
  }

  /** Flattening yields exactly the elements of the inner sequences of the outer elements. */
  lemma {:induction false} InFlatMap<A, B>(f: A -> seq<B>, s: seq<A>, y: B)
    ensures y in FlatMap(f, s) <==> exists x :: x in s && y in f(x)
  {
    if s != [] {
      InFlatMap(f, s[1..], y);
      assert forall x :: x in s <==> x == s[0] || x in s[1..];
    }
  }

  // ---------------------------------------------------------------------------
  // Filter

  /** Filtering is order preserving: it distributes over concatenation. */
  lemma {:induction false} FilterAppend<A>(p: A -> bool, a: seq<A>, b: seq<A>)
    ensures Filter(p, a + b) == Filter(p, a) + Filter(p, b)
  {
    if a == [] {
      assert a + b == b;
    } else {
      assert (a + b)[1..] == a[1..] + b;
      FilterAppend(p, a[1..], b);
    }
  }

  /** Filter only consults its predicate on the elements it is given. */
  lemma {:induction false} FilterCongruence<A>(p: A -> bool, q: A -> bool, s: seq<A>)
    requires forall x :: x in s ==> p(x) == q(x)
    ensures Filter(p, s) == Filter(q, s)
  {
    if s != [] {
      FilterCongruence(p, q, s[1..]);
    }
  }

  /** Two filters in a row keep exactly what their conjunction pq keeps, in the same order. */
  lemma {:induction false} FilterFilter<A>(p: A -> bool, q: A -> bool, pq: A -> bool, s: seq<A>)
    requires forall x :: x in s ==> pq(x) == (p(x) && q(x))
    ensures Filter(q, Filter(p, s)) == Filter(pq, s)
  {
    if s != [] {
      FilterFilter(p, q, pq, s[1..]);
    }
  }

  /** The conjunction of a filter chain, as one predicate. */
  function AllOf<A>(ps: seq<A -> bool>): A -> bool
  {
    x => PassesAll(ps, x)
  }

  /** A filter chain in declared order equals one filter by the conjunction of its predicates. */
  lemma {:induction false} FilterAllIsConjunction<A>(ps: seq<A -> bool>, s: seq<A>)
    ensures FilterAll(ps, s) == Filter(AllOf(ps), s)
  {
    if ps == [] {
      FilterKeepsAll(AllOf(ps), s);
    } else {
      var rest := ps[1..];
      FilterAllIsConjunction(rest, Filter(ps[0], s));
      forall x | x in s
        ensures AllOf(ps)(x) == (ps[0](x) && AllOf(rest)(x))
      {
        if PassesAll(ps, x) {
          assert forall k :: 0 <= k < |rest| ==> rest[k] == ps[k + 1];
        }
        if ps[0](x) && PassesAll(rest, x) {
          forall k | 0 <= k < |ps| ensures ps[k](x) {
            if k > 0 { assert ps[k] == rest[k - 1]; }
          }
        }
      }
      FilterFilter(ps[0], AllOf(rest), AllOf(ps), s);
    }
  }

  /** A filter chain is order preserving too. */
  lemma FilterAllAppend<A>(ps: seq<A -> bool>, a: seq<A>, b: seq<A>)
    ensures FilterAll(ps, a + b) == FilterAll(ps, a) + FilterAll(ps, b)
  {
    FilterAllIsConjunction(ps, a + b);
    FilterAllIsConjunction(ps, a);
    FilterAllIsConjunction(ps, b);
    FilterAppend(AllOf(ps), a, b);
  }

  /** A filter that everything passes changes nothing. */
  lemma {:induction false} FilterKeepsAll<A>(p: A -> bool, s: seq<A>)
    requires forall x :: x in s ==> p(x)
    ensures Filter(p, s) == s
  {
    if s != [] {
      FilterKeepsAll(p, s[1..]);
    }
  }

  /** A filter that nothing passes yields nothing. */
  lemma {:induction false} FilterRejectsAll<A>(p: A -> bool, s: seq<A>)
    requires forall x :: x in s ==> !p(x)
    ensures Filter(p, s) == []
  {
    if s != [] {
      FilterRejectsAll(p, s[1..]);
    }
  }

  /** Filtering after a map is filtering before it, by the predicate read through the map. */
  lemma {:induction false} FilterMap<A, B>(p: B -> bool, q: A -> bool, g: A -> B, s: seq<A>)
    requires forall x :: x in s ==> p(g(x)) == q(x)
    ensures Filter(p, Map(g, s)) == Map(g, Filter(q, s))
  {
    if s != [] {
      assert Map(g, s)[1..] == Map(g, s[1..]);
      FilterMap(p, q, g, s[1..]);
    }
  }

  /** The same, for a whole filter chain. */
  lemma {:induction false} FilterAllMap<A, B>(ps: seq<B -> bool>, qs: seq<A -> bool>, g: A -> B, s: seq<A>)
    requires |ps| == |qs|
    requires forall k, x :: 0 <= k < |ps| && x in s ==> ps[k](g(x)) == qs[k](x)
    ensures FilterAll(ps, Map(g, s)) == Map(g, FilterAll(qs, s))
  {
    if ps != [] {
      FilterMap(ps[0], qs[0], g, s);
      var t := Filter(qs[0], s);
      forall x | x in t ensures x in s { InFilter(qs[0], s, x); }
      assert forall k, x :: 0 <= k < |ps[1..]| && x in t ==> ps[1..][k](g(x)) == qs[1..][k](x) by {
        forall k, x | 0 <= k < |ps[1..]| && x in t
          ensures ps[1..][k](g(x)) == qs[1..][k](x)
        {
          assert ps[1..][k] == ps[k + 1] && qs[1..][k] == qs[k + 1];
        }
      }
      FilterAllMap(ps[1..], qs[1..], g, t);
    }
  }

  // ---------------------------------------------------------------------------
  // FlatMap

  /** Flattening is concatenation in outer order: it distributes over concatenation. */
  lemma {:induction false} FlatMapAppend<A, B>(f: A -> seq<B>, a: seq<A>, b: seq<A>)
    ensures FlatMap(f, a + b) == FlatMap(f, a) + FlatMap(f, b)
  {
    if a == [] {
      assert a + b == b;
    } else {
      assert (a + b)[1..] == a[1..] + b;
      FlatMapAppend(f, a[1..], b);
    }
  }

  /** Flattening one outer element yields exactly that element's inner sequence. */
  lemma FlatMapSingle<A, B>(f: A -> seq<B>, x: A)
    ensures FlatMap(f, [x]) == f(x)
  {
    assert [x][1..] == [];
  }

  /** An outer element whose inner sequence is empty contributes nothing. */
  lemma FlatMapSkipsEmpty<A, B>(f: A -> seq<B>, a: seq<A>, x: A, b: seq<A>)
    requires f(x) == []
    ensures FlatMap(f, a + [x] + b) == FlatMap(f, a + b)
  {
    FlatMapAppend(f, a + [x], b);
    FlatMapAppend(f, a, [x]);
    FlatMapSingle(f, x);
    FlatMapAppend(f, a, b);
  }

  /** Outer elements all of whose inner sequences are empty contribute nothing. */
  lemma {:induction false} FlatMapAllEmpty<A, B>(f: A -> seq<B>, s: seq<A>)
    requires forall x :: x in s ==> f(x) == []
    ensures FlatMap(f, s) == []
  {
    if s != [] {
      FlatMapAllEmpty(f, s[1..]);
    }
  }

  /** FlatMap only consults its function on the elements it is given. */
  lemma {:induction false} FlatMapCongruence<A, B>(f: A -> seq<B>, g: A -> seq<B>, s: seq<A>)
    requires forall x :: x in s ==> f(x) == g(x)
    ensures FlatMap(f, s) == FlatMap(g, s)
  {
    if s != [] {
      FlatMapCongruence(f, g, s[1..]);
    }
  }

  /** Flattening a mapped sequence is flattening through the composed function. */
  lemma {:induction false} FlatMapMap<A, B, C>(f: B -> seq<C>, g: A -> B, h: A -> seq<C>, s: seq<A>)
    requires forall x :: x in s ==> h(x) == f(g(x))
    ensures FlatMap(f, Map(g, s)) == FlatMap(h, s)
  {
    if s != [] {
      assert Map(g, s)[1..] == Map(g, s[1..]);
      FlatMapMap(f, g, h, s[1..]);
    }
  }

  /** Mapping a flattened sequence is flattening the mapped inner sequences. */
  lemma {:induction false} MapFlatMap<A, B, C>(g: B -> C, f: A -> seq<B>, h: A -> seq<C>, s: seq<A>)
    requires forall x :: x in s ==> h(x) == Map(g, f(x))
    ensures Map(g, FlatMap(f, s)) == FlatMap(h, s)
  {
    if s != [] {
      MapAppend(g, f(s[0]), FlatMap(f, s[1..]));
      MapFlatMap(g, f, h, s[1..]);
    }
  }

  /** Filtering a flattened sequence is flattening the filtered inner sequences. */
  lemma {:induction false} FilterFlatMap<A, B>(p: B -> bool, f: A -> seq<B>, h: A -> seq<B>, s: seq<A>)
    requires forall x :: x in s ==> h(x) == Filter(p, f(x))
    ensures Filter(p, FlatMap(f, s)) == FlatMap(h, s)
  {
    if s != [] {
      FilterAppend(p, f(s[0]), FlatMap(f, s[1..]));
      FilterFlatMap(p, f, h, s[1..]);
    }
  }

  /** Two nested flat_maps are one flat_map of a nested one. */
  lemma {:induction false} FlatMapFlatMap<A, B, C>(g: B -> seq<C>, f: A -> seq<B>, h: A -> seq<C>, s: seq<A>)
    requires forall x :: x in s ==> h(x) == FlatMap(g, f(x))
    ensures FlatMap(g, FlatMap(f, s)) == FlatMap(h, s)
  {
    if s != [] {
      FlatMapAppend(g, f(s[0]), FlatMap(f, s[1..]));
      FlatMapFlatMap(g, f, h, s[1..]);
    }
  }

  // ---------------------------------------------------------------------------
  // Map

  lemma MapAppend<A, B>(f: A -> B, a: seq<A>, b: seq<A>)
    ensures Map(f, a + b) == Map(f, a) + Map(f, b)
  {
  }

  /** Two maps in a row are one map by the composition. */
  lemma MapMap<A, B, C>(f: A -> B, g: B -> C, h: A -> C, s: seq<A>)
    requires forall x :: x in s ==> h(x) == g(f(x))
    ensures Map(g, Map(f, s)) == Map(h, s)
  {
  }
}
