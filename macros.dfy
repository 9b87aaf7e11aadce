/** The three arms of the `iterator!` comprehension macro, for one, two and three
    `for v in gen [if filter]*` clauses, as the stage chains they expand to. The clause list
    is taken as already parsed: a generator, the filters in declared order, and the map.
    Binders are the positions of a tuple, as in the closures the macro writes. */
module Macros {
  import opened Stages
  import opened Prepend

  /** `gen1 .filter(f)...`: the level-1 values that pass every level-1 filter. */
  function Level1<A>(gen1: seq<A>, filters1: seq<A -> bool>): seq<A>
  {
    FilterAll(filters1, gen1)
  }

  /** The closure `|v1| prepend1(v1, gen2)` handed to `flat_map` at level 2. */
  function Nest1<A, B>(gen2: A -> seq<B>): A -> seq<(A, B)>
  {
    a => Prepend1Seq(a, gen2(a))
  }

  /** `... .flat_map(|v1| prepend1(v1, gen2)) .filter(f)...`: the surviving level-2 tuples. */
  function Level2<A, B>(gen1: seq<A>, filters1: seq<A -> bool>,
                        gen2: A -> seq<B>, filters2: seq<((A, B)) -> bool>): seq<(A, B)>
  {
    FilterAll(filters2, FlatMap(Nest1(gen2), Level1(gen1, filters1)))
  }

  /** The closure `|(v1, v2)| prepend2(v1, v2, gen3)` handed to `flat_map` at level 3. */
  function Nest2<A, B, C>(gen3: ((A, B)) -> seq<C>): ((A, B)) -> seq<(A, B, C)>
  {
    (t: (A, B)) => Prepend2Seq(t.0, t.1, gen3(t))
  }

  /** `... .flat_map(|(v1, v2)| prepend2(v1, v2, gen3)) .filter(f)...`: the surviving triples. */
  function Level3<A, B, C>(gen1: seq<A>, filters1: seq<A -> bool>,
                           gen2: A -> seq<B>, filters2: seq<((A, B)) -> bool>,
                           gen3: ((A, B)) -> seq<C>, filters3: seq<((A, B, C)) -> bool>): seq<(A, B, C)>
  {
    FilterAll(filters3, FlatMap(Nest2(gen3), Level2(gen1, filters1, gen2, filters2)))
  }

  /** `iterator!(m for v1 in gen1 [if f1]*)`. */
  function Arm1<A, R>(gen1: seq<A>, filters1: seq<A -> bool>, m: A -> R): seq<R>
  {
    Map(m, Level1(gen1, filters1))
  }

  /** `iterator!(m for v1 in gen1 [if f1]* for v2 in gen2 [if f2]*)`. */
  function Arm2<A, B, R>(gen1: seq<A>, filters1: seq<A -> bool>,
                         gen2: A -> seq<B>, filters2: seq<((A, B)) -> bool>,
                         m: ((A, B)) -> R): seq<R>
  {
    Map(m, Level2(gen1, filters1, gen2, filters2))
  }

  /** `iterator!(m for v1 in gen1 [if f1]* for v2 in gen2 [if f2]* for v3 in gen3 [if f3]*)`. */
  function Arm3<A, B, C, R>(gen1: seq<A>, filters1: seq<A -> bool>,
                            gen2: A -> seq<B>, filters2: seq<((A, B)) -> bool>,
                            gen3: ((A, B)) -> seq<C>, filters3: seq<((A, B, C)) -> bool>,
                            m: ((A, B, C)) -> R): seq<R>
  {
    Map(m, Level3(gen1, filters1, gen2, filters2, gen3, filters3))
  }

  // ---------------------------------------------------------------------------
  // What each arm yields

  /** The one-clause arm yields m(x) for exactly the generated x that pass every filter. */
  lemma Arm1Members<A, R>(gen1: seq<A>, filters1: seq<A -> bool>, m: A -> R, y: R)
    ensures y in Arm1(gen1, filters1, m) <==> exists x :: x in gen1 && PassesAll(filters1, x) && y == m(x)
  {
    InMap(m, Level1(gen1, filters1), y);
    if y in Arm1(gen1, filters1, m) {
      var x :| x in Level1(gen1, filters1) && y == m(x);
      InFilterAll(filters1, gen1, x);
    }
    if exists x :: x in gen1 && PassesAll(filters1, x) && y == m(x) {
      var x :| x in gen1 && PassesAll(filters1, x) && y == m(x);
      InFilterAll(filters1, gen1, x);
    }
  }

  /** The surviving level-2 tuples are exactly the (a, b) with a generated and passing the
      level-1 filters, b generated by gen2 for that a, and (a, b) passing the level-2 filters. */
  lemma Level2Members<A, B>(gen1: seq<A>, filters1: seq<A -> bool>,
                            gen2: A -> seq<B>, filters2: seq<((A, B)) -> bool>, t: (A, B))
    ensures t in Level2(gen1, filters1, gen2, filters2) <==>
            t.0 in gen1 && PassesAll(filters1, t.0) && t.1 in gen2(t.0) && PassesAll(filters2, t)
  {
    var outer := Level1(gen1, filters1);
    InFilterAll(filters2, FlatMap(Nest1(gen2), outer), t);
    InFlatMap(Nest1(gen2), outer, t);
    InFilterAll(filters1, gen1, t.0);
    if t in FlatMap(Nest1(gen2), outer) {
      var a :| a in outer && t in Nest1(gen2)(a);
      InPrepend1Seq(a, gen2(a), t);
    }
    if t.0 in outer && t.1 in gen2(t.0) {
      InPrepend1Seq(t.0, gen2(t.0), t);
    }
  }

  /** The two-clause arm yields m(a, b) for exactly those tuples. */
  lemma Arm2Members<A, B, R>(gen1: seq<A>, filters1: seq<A -> bool>,
                             gen2: A -> seq<B>, filters2: seq<((A, B)) -> bool>,
                             m: ((A, B)) -> R, y: R)
    ensures y in Arm2(gen1, filters1, gen2, filters2, m) <==>
            exists a, b :: a in gen1 && PassesAll(filters1, a) && b in gen2(a)
                           && PassesAll(filters2, (a, b)) && y == m((a, b))
  {
    var level2 := Level2(gen1, filters1, gen2, filters2);
    InMap(m, level2, y);
    if y in Arm2(gen1, filters1, gen2, filters2, m) {
      var t :| t in level2 && y == m(t);
      Level2Members(gen1, filters1, gen2, filters2, t);
      assert t == (t.0, t.1);
    }
    if exists a, b :: a in gen1 && PassesAll(filters1, a) && b in gen2(a)
                      && PassesAll(filters2, (a, b)) && y == m((a, b)) {
      var a, b :| a in gen1 && PassesAll(filters1, a) && b in gen2(a)
                  && PassesAll(filters2, (a, b)) && y == m((a, b));
      Level2Members(gen1, filters1, gen2, filters2, (a, b));
    }
  }

  /** The three-clause arm yields m(a, b, c) for exactly the triples whose every level is
      generated from the levels before it and passes its own filters. */
  lemma Arm3Members<A, B, C, R>(gen1: seq<A>, filters1: seq<A -> bool>,
                                gen2: A -> seq<B>, filters2: seq<((A, B)) -> bool>,
                                gen3: ((A, B)) -> seq<C>, filters3: seq<((A, B, C)) -> bool>,
                                m: ((A, B, C)) -> R, y: R)
    ensures y in Arm3(gen1, filters1, gen2, filters2, gen3, filters3, m) <==>
            exists a, b, c :: a in gen1 && PassesAll(filters1, a) && b in gen2(a)
                              && PassesAll(filters2, (a, b)) && c in gen3((a, b))
                              && PassesAll(filters3, (a, b, c)) && y == m((a, b, c))
  {
    var outer := Level2(gen1, filters1, gen2, filters2);
    var level3 := Level3(gen1, filters1, gen2, filters2, gen3, filters3);
    InMap(m, level3, y);
    if y in Arm3(gen1, filters1, gen2, filters2, gen3, filters3, m) {
      var t :| t in level3 && y == m(t);
      InFilterAll(filters3, FlatMap(Nest2(gen3), outer), t);
      InFlatMap(Nest2(gen3), outer, t);
      var u :| u in outer && t in Nest2(gen3)(u);
      InPrepend2Seq(u.0, u.1, gen3(u), t);
      assert u == (u.0, u.1) && t == (u.0, u.1, t.2);
      Level2Members(gen1, filters1, gen2, filters2, u);
    }
    if exists a, b, c :: a in gen1 && PassesAll(filters1, a) && b in gen2(a)
                         && PassesAll(filters2, (a, b)) && c in gen3((a, b))
                         && PassesAll(filters3, (a, b, c)) && y == m((a, b, c)) {
      var a, b, c :| a in gen1 && PassesAll(filters1, a) && b in gen2(a)
                     && PassesAll(filters2, (a, b)) && c in gen3((a, b))
                     && PassesAll(filters3, (a, b, c)) && y == m((a, b, c));
      Level2Members(gen1, filters1, gen2, filters2, (a, b));
      InPrepend2Seq(a, b, gen3((a, b)), (a, b, c));
      InFlatMap(Nest2(gen3), outer, (a, b, c));
      InFilterAll(filters3, FlatMap(Nest2(gen3), outer), (a, b, c));
    }
  }
}
