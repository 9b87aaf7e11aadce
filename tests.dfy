/** The crate's unit tests and the documented example, each stated as the value the
    corresponding macro arm yields once collected. */
module Tests {
  import opened Stages
  import opened Prepend
  import opened Macros

  function Abs(x: int): nat
  {
    if x < 0 then -x else x
  }

  /** Rust's `%` on integers: the remainder takes the sign of the dividend. Rust panics on
      a zero divisor; no test divides by zero, and 0 stands in for the panic here. */
  function Rem(a: int, b: int): (r: int)
    ensures b != 0 && a >= 0 ==> 0 <= r < Abs(b)
    ensures b != 0 && a < 0 ==> 0 < r + Abs(b) && r <= 0
  {
    if b == 0 then 0
    else if a >= 0 then a % Abs(b)
    else -((-a) % Abs(b))
  }

  /** Rust's `/` on integers: the quotient is truncated toward zero, so that quotient and
      remainder recompose the dividend (0 for a zero divisor, as for `Rem`). */
  function Quot(a: int, b: int): (r: int)
    ensures b != 0 ==> r * b + Rem(a, b) == a
  {
    if b == 0 then 0
    else if (a >= 0) == (b > 0) then Abs(a) / Abs(b)
    else -(Abs(a) / Abs(b))
  }

  /** The closures the tests write inline, named so that a proof can refer to them. */
  function Odd(i: int): bool { Rem(i, 2) == 1 }
  function Divides(t: (int, int)): bool { Rem(t.0, t.1) == 0 }
  function Times(t: (int, int)): int { t.0 * t.1 }
  function Quotient(t: (int, int)): int { Quot(t.0, t.1) }
  function EvenSum(t: (int, int)): bool { Rem(t.0 + t.1, 2) == 0 }
  function Pair(t: (int, int)): (int, int) { t }
  function Product(t: (int, int, int)): int { t.0 * t.1 * t.2 }
  function Sum(t: (int, int, int)): int { t.0 + t.1 + t.2 }
  function AllOne(t: (int, int, int)): bool { t.0 == 1 && t.1 == 1 && t.2 == 1 }
  function OneToFour<X>(x: X): seq<int> { Range(1, 4) }
  function TwoToFour<X>(x: X): seq<int> { Range(2, 4) }
  function ThreeToFive<X>(x: X): seq<int> { Range(3, 5) }
  function ZeroToOne<X>(x: X): seq<int> { Range(0, 1) }
  function ZeroToTen<X>(x: X): seq<int> { Range(0, 10) }
  function UpToAndIncluding(i: int): seq<int> { Range(0, i + 1) }
  function Below(i: int): seq<int> { Range(0, i) }

  lemma FlatMapTwo<A, B>(f: A -> seq<B>, a: A, b: A)
    ensures FlatMap(f, [a, b]) == f(a) + f(b)
  {
    assert [a, b][1..] == [b];
    FlatMapSingle(f, b);
  }

  lemma FlatMapThree<A, B>(f: A -> seq<B>, a: A, b: A, c: A)
    ensures FlatMap(f, [a, b, c]) == f(a) + f(b) + f(c)
  {
    assert [a, b, c][1..] == [b, c];
    FlatMapTwo(f, b, c);
  }

  lemma FlatMapFour<A, B>(f: A -> seq<B>, a: A, b: A, c: A, d: A)
    ensures FlatMap(f, [a, b, c, d]) == f(a) + f(b) + f(c) + f(d)
  {
    assert [a, b, c, d][1..] == [b, c, d];
    FlatMapThree(f, b, c, d);
  }


  /** `iterator!(i for i in range(0, 3))` yields 0, 1, 2. */
  lemma Iterator1()
    ensures Arm1(Range(0, 3), [], i => i) == [0, 1, 2]
  {
    assert Range(0, 3) == [0, 1, 2];
  }

  /** `iterator!(i + 1 for i in range(0, 3))` yields 1, 2, 3. */
  lemma Iterator1Map()
    ensures Arm1(Range(0, 3), [], i => i + 1) == [1, 2, 3]
  {
    assert Range(0, 3) == [0, 1, 2];
  }

  /** `iterator!(i for i in range(0, 3) if i % 2 == 1)` yields 1. */
  lemma Iterator1Filter()
    ensures Arm1(Range(0, 3), [Odd], i => i) == [1]
  {
    assert Range(0, 3) == [0, 1, 2];
    assert Filter(Odd, [0, 1, 2]) == [1];
    assert [Odd][1..] == [];
    assert FilterAll([Odd], [0, 1, 2]) == Filter(Odd, [0, 1, 2]);
    assert Level1(Range(0, 3), [Odd]) == [1];
  }

  /** `iterator!(i * 2 for i in range(0, 3) if i % 2 == 1)` yields 2. */
  lemma Iterator1FilterMap()
    ensures Arm1(Range(0, 3), [Odd], i => i * 2) == [2]
  {
    assert Range(0, 3) == [0, 1, 2];
    assert Filter(Odd, [0, 1, 2]) == [1];
    assert [Odd][1..] == [];
    assert FilterAll([Odd], [0, 1, 2]) == Filter(Odd, [0, 1, 2]);
    assert Level1(Range(0, 3), [Odd]) == [1];
  }

  /** A two-clause arm without filters. */
  lemma Level2NoFilter<A, B>(gen1: seq<A>, gen2: A -> seq<B>)
    ensures Level2(gen1, [], gen2, []) == FlatMap(Nest1(gen2), gen1)
  {
    assert Level1(gen1, []) == gen1;
  }

  /** `iterator!(i * j for i in range(1, 3) for j in range(2, 4))` yields 2, 3, 4, 6. */
  lemma Iterator2Map()
    ensures Arm2(Range(1, 3), [], TwoToFour, [], Times) == [2, 3, 4, 6]
  {
    Level2NoFilter(Range(1, 3), TwoToFour);
    ProductPairs();
    assert Map(Times, [(1, 2), (1, 3), (2, 2), (2, 3)]) == [2, 3, 4, 6];
  }

  /** A two-clause arm with one filter on the pairs only. */
  lemma Level2OneFilter<A, B>(gen1: seq<A>, gen2: A -> seq<B>, p: ((A, B)) -> bool)
    ensures Level2(gen1, [], gen2, [p]) == Filter(p, FlatMap(Nest1(gen2), gen1))
  {
    var pairs := FlatMap(Nest1(gen2), gen1);
    assert Level1(gen1, []) == gen1;
    assert [p][1..] == [];
    assert FilterAll([p], pairs) == FilterAll([], Filter(p, pairs));
  }

  lemma DivisionPairs()
    ensures FlatMap(Nest1(OneToFour), Range(6, 9))
            == [(6, 1), (6, 2), (6, 3), (7, 1), (7, 2), (7, 3), (8, 1), (8, 2), (8, 3)]
  {
    assert Range(6, 9) == [6, 7, 8];
    assert Range(1, 4) == [1, 2, 3];
    assert OneToFour(6) == [1, 2, 3] && Prepend1Seq(6, [1, 2, 3]) == [(6, 1), (6, 2), (6, 3)];
    assert Nest1(OneToFour)(6) == Prepend1Seq(6, OneToFour(6));
    assert OneToFour(7) == [1, 2, 3] && Prepend1Seq(7, [1, 2, 3]) == [(7, 1), (7, 2), (7, 3)];
    assert Nest1(OneToFour)(7) == Prepend1Seq(7, OneToFour(7));
    assert OneToFour(8) == [1, 2, 3] && Prepend1Seq(8, [1, 2, 3]) == [(8, 1), (8, 2), (8, 3)];
    assert Nest1(OneToFour)(8) == Prepend1Seq(8, OneToFour(8));
    FlatMapThree(Nest1(OneToFour), 6, 7, 8);
  }

  lemma DivisionKept()
    ensures Filter(Divides, [(6, 1), (6, 2), (6, 3), (7, 1), (7, 2), (7, 3), (8, 1), (8, 2), (8, 3)])
            == [(6, 1), (6, 2), (6, 3), (7, 1), (8, 1), (8, 2)]
  {
  }

  /** `iterator!(i / j for i in range(6, 9) for j in range(1, 4) if i % j == 0)`
      yields 6, 3, 2, 7, 8, 4. */
  lemma Iterator2FilterMap()
    ensures Arm2(Range(6, 9), [], OneToFour, [Divides], Quotient) == [6, 3, 2, 7, 8, 4]
  {
    Level2OneFilter(Range(6, 9), OneToFour, Divides);
    DivisionPairs();
    DivisionKept();
    var kept := [(6, 1), (6, 2), (6, 3), (7, 1), (8, 1), (8, 2)];
    assert Map(Quotient, kept) == [6, 3, 2, 7, 8, 4];
  }

  lemma ExamplePairs()
    ensures FlatMap(Nest1(UpToAndIncluding), Range(0, 3))
            == [(0, 0), (1, 0), (1, 1), (2, 0), (2, 1), (2, 2)]
  {
    assert Range(0, 3) == [0, 1, 2];
    assert Range(0, 1) == [0] && Range(0, 2) == [0, 1];
    assert UpToAndIncluding(0) == [0] && Prepend1Seq(0, [0]) == [(0, 0)];
    assert Nest1(UpToAndIncluding)(0) == Prepend1Seq(0, UpToAndIncluding(0));
    assert UpToAndIncluding(1) == [0, 1] && Prepend1Seq(1, [0, 1]) == [(1, 0), (1, 1)];
    assert Nest1(UpToAndIncluding)(1) == Prepend1Seq(1, UpToAndIncluding(1));
    assert UpToAndIncluding(2) == [0, 1, 2] && Prepend1Seq(2, [0, 1, 2]) == [(2, 0), (2, 1), (2, 2)];
    assert Nest1(UpToAndIncluding)(2) == Prepend1Seq(2, UpToAndIncluding(2));
    FlatMapThree(Nest1(UpToAndIncluding), 0, 1, 2);
  }

  /** The documented example: `iterator!((i, j) for i in range(0, 3) for j in range(0, i + 1)
      if (i + j) % 2 == 0)` yields (0, 0), (1, 1), (2, 0), (2, 2). */
  lemma Iterator2Example()
    ensures Arm2(Range(0, 3), [], UpToAndIncluding, [EvenSum], Pair)
            == [(0, 0), (1, 1), (2, 0), (2, 2)]
  {
    Level2OneFilter(Range(0, 3), UpToAndIncluding, EvenSum);
    ExamplePairs();
    ExampleKept();
    var kept := [(0, 0), (1, 1), (2, 0), (2, 2)];
    assert Map(Pair, kept) == kept;
  }

  lemma ExampleKept()
    ensures Filter(EvenSum, [(0, 0), (1, 0), (1, 1), (2, 0), (2, 1), (2, 2)])
            == [(0, 0), (1, 1), (2, 0), (2, 2)]
  {
    var pairs := [(0, 0), (1, 0), (1, 1), (2, 0), (2, 1), (2, 2)];
    assert EvenSum((0, 0)) && !EvenSum((1, 0)) && EvenSum((1, 1));
    assert EvenSum((2, 0)) && !EvenSum((2, 1)) && EvenSum((2, 2));
    assert pairs[1..] == [(1, 0), (1, 1), (2, 0), (2, 1), (2, 2)];
    assert pairs[2..] == [(1, 1), (2, 0), (2, 1), (2, 2)];
    assert pairs[3..] == [(2, 0), (2, 1), (2, 2)];
    assert pairs[4..] == [(2, 1), (2, 2)] && pairs[5..] == [(2, 2)] && pairs[6..] == [];
  }

  /** A three-clause arm without filters. */
  lemma Level3NoFilter<A, B, C>(gen1: seq<A>, gen2: A -> seq<B>, gen3: ((A, B)) -> seq<C>)
    ensures Level3(gen1, [], gen2, [], gen3, []) == FlatMap(Nest2(gen3), FlatMap(Nest1(gen2), gen1))
  {
    assert Level1(gen1, []) == gen1;
    assert Level2(gen1, [], gen2, []) == FlatMap(Nest1(gen2), gen1);
  }

  lemma ProductPairs()
    ensures FlatMap(Nest1(TwoToFour), Range(1, 3)) == [(1, 2), (1, 3), (2, 2), (2, 3)]
  {
    assert Range(1, 3) == [1, 2] && Range(2, 4) == [2, 3];
    assert TwoToFour(1) == [2, 3] && Prepend1Seq(1, [2, 3]) == [(1, 2), (1, 3)];
    assert Nest1(TwoToFour)(1) == Prepend1Seq(1, TwoToFour(1));
    assert TwoToFour(2) == [2, 3] && Prepend1Seq(2, [2, 3]) == [(2, 2), (2, 3)];
    assert Nest1(TwoToFour)(2) == Prepend1Seq(2, TwoToFour(2));
    FlatMapTwo(Nest1(TwoToFour), 1, 2);
  }

  lemma ProductTriples()
    ensures FlatMap(Nest2(ThreeToFive), [(1, 2), (1, 3), (2, 2), (2, 3)])
            == [(1, 2, 3), (1, 2, 4), (1, 3, 3), (1, 3, 4), (2, 2, 3), (2, 2, 4), (2, 3, 3), (2, 3, 4)]
  {
    assert Range(3, 5) == [3, 4];
    assert ThreeToFive((1, 2)) == [3, 4] && Prepend2Seq(1, 2, [3, 4]) == [(1, 2, 3), (1, 2, 4)];
    assert Nest2(ThreeToFive)((1, 2)) == Prepend2Seq(1, 2, ThreeToFive((1, 2)));
    assert ThreeToFive((1, 3)) == [3, 4] && Prepend2Seq(1, 3, [3, 4]) == [(1, 3, 3), (1, 3, 4)];
    assert Nest2(ThreeToFive)((1, 3)) == Prepend2Seq(1, 3, ThreeToFive((1, 3)));
    assert ThreeToFive((2, 2)) == [3, 4] && Prepend2Seq(2, 2, [3, 4]) == [(2, 2, 3), (2, 2, 4)];
    assert Nest2(ThreeToFive)((2, 2)) == Prepend2Seq(2, 2, ThreeToFive((2, 2)));
    assert ThreeToFive((2, 3)) == [3, 4] && Prepend2Seq(2, 3, [3, 4]) == [(2, 3, 3), (2, 3, 4)];
    assert Nest2(ThreeToFive)((2, 3)) == Prepend2Seq(2, 3, ThreeToFive((2, 3)));
    FlatMapFour(Nest2(ThreeToFive), (1, 2), (1, 3), (2, 2), (2, 3));
  }

  lemma ProductValues()
    ensures Map(Product, [(1, 2, 3), (1, 2, 4), (1, 3, 3), (1, 3, 4), (2, 2, 3), (2, 2, 4), (2, 3, 3), (2, 3, 4)])
            == [6, 8, 9, 12, 12, 16, 18, 24]
  {
  }

  /** `iterator!(i * j * k for i in range(1, 3) for j in range(2, 4) for k in range(3, 5))`
      yields 6, 8, 9, 12, 12, 16, 18, 24. */
  lemma Iterator3Map()
    ensures Arm3(Range(1, 3), [], TwoToFour, [], ThreeToFive, [], Product)
            == [6, 8, 9, 12, 12, 16, 18, 24]
  {
    Level3NoFilter(Range(1, 3), TwoToFour, ThreeToFive);
    ProductPairs();
    ProductTriples();
    ProductValues();
  }

  /** `iterator!(i * j * k for i in range(0, 2) for j in range(0, i) for k in range(0, 1))`
      yields the single value 0: the empty inner range for i = 0 contributes nothing. */
  lemma Iterator3Empty()
    ensures Arm3(Range(0, 2), [], Below, [], ZeroToOne, [], Product) == [0]
  {
    Level3NoFilter(Range(0, 2), Below, ZeroToOne);
    assert Range(0, 2) == [0, 1] && Range(0, 0) == [] && Range(0, 1) == [0];
    assert Below(0) == [] && Prepend1Seq(0, Below(0)) == [];
    assert Nest1(Below)(0) == Prepend1Seq(0, Below(0));
    assert Below(1) == [0] && Prepend1Seq(1, [0]) == [(1, 0)];
    assert Nest1(Below)(1) == Prepend1Seq(1, Below(1));
    FlatMapTwo(Nest1(Below), 0, 1);
    assert ZeroToOne((1, 0)) == [0] && Prepend2Seq(1, 0, [0]) == [(1, 0, 0)];
    assert Nest2(ZeroToOne)((1, 0)) == Prepend2Seq(1, 0, ZeroToOne((1, 0)));
    FlatMapSingle(Nest2(ZeroToOne), (1, 0));
    assert Map(Product, [(1, 0, 0)]) == [0];
  }

  // ---------------------------------------------------------------------------
  // The thousand-triple test, by the structure of the pipeline rather than by enumeration

  /** Exactly one outer element has a non-empty inner sequence. */
  lemma {:induction false} FlatMapOneHit<A, B>(f: A -> seq<B>, s: seq<A>, i: int)
    requires 0 <= i < |s|
    requires forall j :: 0 <= j < |s| && j != i ==> f(s[j]) == []
    ensures FlatMap(f, s) == f(s[i])
  {
    if i == 0 {
      forall x | x in s[1..] ensures f(x) == [] {
        var j :| 0 <= j < |s[1..]| && s[1..][j] == x;
        assert s[j + 1] == x;
      }
      FlatMapAllEmpty(f, s[1..]);
    } else {
      assert f(s[0]) == [];
      FlatMapOneHit(f, s[1..], i - 1);
    }
  }

  /** Exactly one element passes the filter. */
  lemma {:induction false} FilterOneHit<A>(p: A -> bool, s: seq<A>, i: int)
    requires 0 <= i < |s| && p(s[i])
    requires forall j :: 0 <= j < |s| && j != i ==> !p(s[j])
    ensures Filter(p, s) == [s[i]]
  {
    if i == 0 {
      forall x | x in s[1..] ensures !p(x) {
        var j :| 0 <= j < |s[1..]| && s[1..][j] == x;
        assert s[j + 1] == x;
      }
      FilterRejectsAll(p, s[1..]);
    } else {
      assert !p(s[0]);
      FilterOneHit(p, s[1..], i - 1);
    }
  }

  /** A three-clause arm with one filter on the triples only. */
  lemma Level3OneFilter<A, B, C>(gen1: seq<A>, gen2: A -> seq<B>, gen3: ((A, B)) -> seq<C>,
                                 p: ((A, B, C)) -> bool)
    ensures Level3(gen1, [], gen2, [], gen3, [p])
            == Filter(p, FlatMap(Nest2(gen3), FlatMap(Nest1(gen2), gen1)))
  {
    var triples := FlatMap(Nest2(gen3), FlatMap(Nest1(gen2), gen1));
    assert Level1(gen1, []) == gen1;
    assert Level2(gen1, [], gen2, []) == FlatMap(Nest1(gen2), gen1);
    assert [p][1..] == [];
    assert FilterAll([p], triples) == FilterAll([], Filter(p, triples));
  }

  /** The triples grown from the first value i, and those of them that pass `AllOne`. */
  function Row(i: int): seq<(int, int, int)>
  {
    FlatMap(Nest2(ZeroToTen), Nest1(ZeroToTen)(i))
  }

  function KeptRow(i: int): seq<(int, int, int)>
  {
    Filter(AllOne, Row(i))
  }

  /** The triples grown from the pair (1, j), and those of them that pass `AllOne`. */
  function KeptCell(t: (int, int)): seq<(int, int, int)>
  {
    Filter(AllOne, Nest2(ZeroToTen)(t))
  }

  lemma RowStarts(i: int, t: (int, int, int))
    requires t in Row(i)
    ensures t.0 == i
  {
    InFlatMap(Nest2(ZeroToTen), Nest1(ZeroToTen)(i), t);
    var u :| u in Nest1(ZeroToTen)(i) && t in Nest2(ZeroToTen)(u);
    InPrepend1Seq(i, ZeroToTen(i), u);
    InPrepend2Seq(u.0, u.1, ZeroToTen(u), t);
  }

  lemma OtherRowsEmpty(i: int)
    requires i != 1
    ensures KeptRow(i) == []
  {
    forall t | t in Row(i) ensures !AllOne(t) {
      RowStarts(i, t);
    }
    FilterRejectsAll(AllOne, Row(i));
  }

  lemma OtherCellsEmpty(t: (int, int))
    requires t.1 != 1
    ensures KeptCell(t) == []
  {
    forall u | u in Nest2(ZeroToTen)(t) ensures !AllOne(u) {
      InPrepend2Seq(t.0, t.1, ZeroToTen(t), u);
    }
    FilterRejectsAll(AllOne, Nest2(ZeroToTen)(t));
  }

  lemma CellOne()
    ensures KeptCell((1, 1)) == [(1, 1, 1)]
  {
    var cell := Nest2(ZeroToTen)((1, 1));
    assert ZeroToTen((1, 1)) == Range(0, 10);
    assert cell == Prepend2Seq(1, 1, ZeroToTen((1, 1)));
    FilterOneHit(AllOne, cell, 1);
  }

  lemma RowOne()
    ensures KeptRow(1) == [(1, 1, 1)]
  {
    var pairs := Nest1(ZeroToTen)(1);
    assert pairs == Prepend1Seq(1, ZeroToTen(1));
    FilterFlatMap(AllOne, Nest2(ZeroToTen), KeptCell, pairs);
    forall j | 0 <= j < |pairs| && j != 1 ensures KeptCell(pairs[j]) == [] {
      assert pairs[j] == (1, ZeroToTen(1)[j]);
      OtherCellsEmpty(pairs[j]);
    }
    FlatMapOneHit(KeptCell, pairs, 1);
    CellOne();
  }

  /** `iterator!(i + j + k for i in range(0, 10) for j in range(0, 10) for k in range(0, 10)
      if i == 1 && j == 1 && k == 1)` yields the single value 3 out of a thousand triples. */
  lemma Iterator3FilterMap()
    ensures Arm3(Range(0, 10), [], ZeroToTen, [], ZeroToTen, [AllOne], Sum) == [3]
  {
    var digits := Range(0, 10);
    Level3OneFilter(digits, ZeroToTen, ZeroToTen, AllOne);
    FlatMapFlatMap(Nest2(ZeroToTen), Nest1(ZeroToTen), Row, digits);
    FilterFlatMap(AllOne, Row, KeptRow, digits);
    forall j | 0 <= j < |digits| && j != 1 ensures KeptRow(digits[j]) == [] {
      OtherRowsEmpty(digits[j]);
    }
    FlatMapOneHit(KeptRow, digits, 1);
    RowOne();
    assert Map(Sum, [(1, 1, 1)]) == [3];
  }
}
