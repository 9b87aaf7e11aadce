/** The adapters `Prepend1` and `Prepend2`: iterators that return each element of an inner
    iterator in the last position of a tuple whose earlier positions are fixed outer values.
    The inner iterator is modelled by the sequence of elements it has still to yield. */
module Prepend {
  import opened Stages

  datatype Option<T> = None | Some(value: T)

  /** What a `Prepend1` over `v1` and an inner iterator yielding s yields when drained. */
  function Prepend1Seq<T1, T>(v1: T1, s: seq<T>): (r: seq<(T1, T)>)
    ensures |r| == |s|
    ensures forall i :: 0 <= i < |s| ==> r[i] == (v1, s[i])
  {
    Map(x => (v1, x), s)
  }

  /** What a `Prepend2` over `v1`, `v2` and an inner iterator yielding s yields when drained. */
  function Prepend2Seq<T1, T2, T>(v1: T1, v2: T2, s: seq<T>): (r: seq<(T1, T2, T)>)
    ensures |r| == |s|
    ensures forall i :: 0 <= i < |s| ==> r[i] == (v1, v2, s[i])
  {
    Map(x => (v1, v2, x), s)
  }

  lemma InPrepend1Seq<T1, T>(v1: T1, s: seq<T>, t: (T1, T))
    ensures t in Prepend1Seq(v1, s) <==> t.0 == v1 && t.1 in s
  {
    if t.0 == v1 && t.1 in s {
      var i :| 0 <= i < |s| && s[i] == t.1;
      assert Prepend1Seq(v1, s)[i] == t;
    }
  }

  lemma InPrepend2Seq<T1, T2, T>(v1: T1, v2: T2, s: seq<T>, t: (T1, T2, T))
    ensures t in Prepend2Seq(v1, v2, s) <==> t.0 == v1 && t.1 == v2 && t.2 in s
  {
    if t.0 == v1 && t.1 == v2 && t.2 in s {
      var i :| 0 <= i < |s| && s[i] == t.2;
      assert Prepend2Seq(v1, v2, s)[i] == t;
    }
  }

  /** Adapters over concatenated inner sequences yield the concatenated outputs. */
  lemma Prepend1SeqAppend<T1, T>(v1: T1, a: seq<T>, b: seq<T>)
    ensures Prepend1Seq(v1, a + b) == Prepend1Seq(v1, a) + Prepend1Seq(v1, b)
  {
  }

  lemma Prepend2SeqAppend<T1, T2, T>(v1: T1, v2: T2, a: seq<T>, b: seq<T>)
    ensures Prepend2Seq(v1, v2, a + b) == Prepend2Seq(v1, v2, a) + Prepend2Seq(v1, v2, b)
  {
  }

  /** Maps each element `x` of the inner iterator to `(val1, x)`. */
  class Prepend1<T1, T> {
    /** The elements the inner iterator has still to yield. */
    var iter: seq<T>
    /** The outer value; never reassigned, only copied into each tuple. */
    const val1: T1

    /** `Prepend1::new`. */
    constructor (v1: T1, it: seq<T>)
      ensures val1 == v1 && iter == it
    {
      val1 := v1;
      iter := it;
    }

    /** `next`: pulls one element from the inner iterator and pairs it with `val1`;
        `None` exactly when the inner iterator is exhausted. */
    method Next() returns (r: Option<(T1, T)>)
      modifies this
      ensures r.None? <==> old(iter) == []
      ensures r.None? ==> iter == old(iter)
      ensures r.Some? ==> r.value == (val1, old(iter)[0]) && iter == old(iter)[1..]
    {
      if iter == [] {
        r := None;
      } else {
        r := Some((val1, iter[0]));
        iter := iter[1..];
      }
    }

    /** `collect`: calls `next` until it returns `None`, keeping what it returns in order. */
    method Collect() returns (out: seq<(T1, T)>)
      modifies this
      ensures out == Prepend1Seq(val1, old(iter))
      ensures iter == []
    {
      out := [];
      while true
        invariant out + Prepend1Seq(val1, iter) == Prepend1Seq(val1, old(iter))
        decreases |iter|
      {
        ghost var before := iter;
        var r := Next();
        if r.None? {
          break;
        }
        assert before == [before[0]] + iter;
        Prepend1SeqAppend(val1, [before[0]], iter);
        out := out + [r.value];
      }
    }
  }

  /** `prepend1`: builds a fresh `Prepend1` over `v1` and `it`. */
  method MakePrepend1<T1, T>(v1: T1, it: seq<T>) returns (p: Prepend1<T1, T>)
    ensures fresh(p) && p.val1 == v1 && p.iter == it
  {
    p := new Prepend1(v1, it);
  }

  /** Maps each element `x` of the inner iterator to `(val1, val2, x)`. */
  class Prepend2<T1, T2, T> {
    /** The elements the inner iterator has still to yield. */
    var iter: seq<T>
    /** The outer values; never reassigned, only copied into each tuple. */
    const val1: T1
    const val2: T2

    /** `Prepend2::new`. */
    constructor (v1: T1, v2: T2, it: seq<T>)
      ensures val1 == v1 && val2 == v2 && iter == it
    {
      val1 := v1;
      val2 := v2;
      iter := it;
    }

    /** `next`: pulls one element from the inner iterator and puts `val1`, `val2` before it;
        `None` exactly when the inner iterator is exhausted. */
    method Next() returns (r: Option<(T1, T2, T)>)
      modifies this
      ensures r.None? <==> old(iter) == []
      ensures r.None? ==> iter == old(iter)
      ensures r.Some? ==> r.value == (val1, val2, old(iter)[0]) && iter == old(iter)[1..]
    {
      if iter == [] {
        r := None;
      } else {
        r := Some((val1, val2, iter[0]));
        iter := iter[1..];
      }
    }

    /** `collect`: calls `next` until it returns `None`, keeping what it returns in order. */
    method Collect() returns (out: seq<(T1, T2, T)>)
      modifies this
      ensures out == Prepend2Seq(val1, val2, old(iter))
      ensures iter == []
    {
      out := [];
      while true
        invariant out + Prepend2Seq(val1, val2, iter) == Prepend2Seq(val1, val2, old(iter))
        decreases |iter|
      {
        ghost var before := iter;
        var r := Next();
        if r.None? {
          break;
        }
        assert before == [before[0]] + iter;
        Prepend2SeqAppend(val1, val2, [before[0]], iter);
        out := out + [r.value];
      }
    }
  }

  /** `prepend2`: builds a fresh `Prepend2` over `v1`, `v2` and `it`. */
  method MakePrepend2<T1, T2, T>(v1: T1, v2: T2, it: seq<T>) returns (p: Prepend2<T1, T2, T>)
    ensures fresh(p) && p.val1 == v1 && p.val2 == v2 && p.iter == it
  {
    p := new Prepend2(v1, v2, it);
  }
}
