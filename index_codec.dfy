/** Conversion between a row-major multi-index (last axis fastest) and a flat
    index, and re-expression of an index under a second shape of equal size.

    ProdStep is the one-axis case of ProdConcat and SplitLast is DivBound
    phrased over a shape; both stay separate so that the recursive proofs
    about the codec see only the terms they unfold. */
module IndexCodec {
  import opened Outcome
  import opened Numbers

  /** Product of the axis sizes, taken from the last axis down. */
  function Prod(shape: seq<nat>): nat
  {
    if |shape| == 0 then 1 else Prod(shape[..|shape| - 1]) * shape[|shape| - 1]
  }

  /** Every component of index lies below the size of its axis. */
  predicate InRange(index: seq<nat>, shape: seq<nat>)
  {
    |index| == |shape| && forall a :: 0 <= a < |index| ==> index[a] < shape[a]
  }

  /** The shape [d, d, ..., d] of a level-k tensor. */
  function Repeat(d: nat, k: nat): (s: seq<nat>)
    ensures |s| == k && forall a :: 0 <= a < k ==> s[a] == d
  {
    seq(k, _ => d)
  }

  /** Flat index of a multi-index: the flat index of all but the last
      component, times the last axis size, plus the last component. An
      index whose length differs from the shape's is refused; on an empty
      index the original recurses without end, reported here as
      CallStackExceeded. Components are not range-checked. */
  function IndexToInt(index: seq<nat>, shape: seq<nat>): (r: Result<nat>)
    ensures r.Ok? <==> |index| == |shape| && |index| > 0
    ensures r.Err? ==> r.error == (if |index| != |shape| then DimensionMismatch else CallStackExceeded)
  {
    if |index| != |shape| then Err(DimensionMismatch)
    else if |index| == 0 then Err(CallStackExceeded)
    else if |index| == 1 then Ok(index[0])
    else
      var i := index[|index| - 1];
      var n := shape[|shape| - 1];
      Ok(IndexToInt(index[..|index| - 1], shape[..|shape| - 1]).value * n + i)
  }

  /** Multi-index of a flat index, last axis fastest. The flat index must
      lie below the product of the shape, and the product of an empty shape
      is refused. */
  function IntToIndex(m: nat, shape: seq<nat>): (r: Result<seq<nat>>)
    ensures r.Ok? <==> |shape| > 0 && m < Prod(shape)
    ensures r.Err? ==> r.error == (if |shape| == 0 then EmptyShape else IndexOutOfRange)
    ensures r.Ok? ==> |r.value| == |shape|
    decreases |shape|
  {
    if |shape| == 0 then Err(EmptyShape)
    else if m >= Prod(shape) then Err(IndexOutOfRange)
    else if |shape| == 1 then Ok([m])
    else
      var n := shape[|shape| - 1];
      var init := shape[..|shape| - 1];
      SplitLast(m, shape, init, n);
      Ok(IntToIndex(m / n, init).value + [m % n])
  }

  /** A decoded flat index is in range: every component lies below the size
      of its axis. */
  lemma {:induction false} IntToIndexInRange(m: nat, shape: seq<nat>)
    requires IntToIndex(m, shape).Ok?
    ensures InRange(IntToIndex(m, shape).value, shape)
    decreases |shape|
  {
    if |shape| > 1 {
      var n := shape[|shape| - 1];
      var init := shape[..|shape| - 1];
      SplitLast(m, shape, init, n);
      IntToIndexInRange(m / n, init);
      InRangeSnoc(IntToIndex(m / n, init).value, init, m % n, n, shape);
    } else {
      assert Prod(shape) == Prod([]) * shape[0];
    }
  }

  /** On a one-axis shape the decoding of m is [m]. */
  lemma {:induction false} IntToIndexOneAxis(m: nat, shape: seq<nat>)
    requires |shape| == 1 && m < shape[0]
    ensures IntToIndex(m, shape) == Ok([m])
  {
    assert Prod(shape) == Prod([]) * shape[0];
  }

  /** Below the product of a shape, the quotient by the last axis lies
      below the product of the other axes and the remainder below the last
      axis. */
  lemma {:induction false} SplitLast(m: nat, shape: seq<nat>, init: seq<nat>, n: nat)
    requires |shape| > 0 && m < Prod(shape)
    requires init == shape[..|shape| - 1] && n == shape[|shape| - 1]
    ensures n > 0 && m / n < Prod(init) && m % n < n
  {
    DivBound(m, Prod(init), n);
  }

  /** An in-range index extended by a component below n is in range under
      the shape extended by n. */
  lemma {:induction false} InRangeSnoc(index: seq<nat>, init: seq<nat>, i: nat, n: nat, shape: seq<nat>)
    requires InRange(index, init) && i < n && shape == init + [n]
    ensures InRange(index + [i], shape)
  {
  }

  /** The index under shape2 of the entry that index addresses under shape1. */
  function Reindex(index: seq<nat>, shape1: seq<nat>, shape2: seq<nat>): (r: Result<seq<nat>>)
    ensures r.Ok? <==> |index| == |shape1| > 0 && |shape2| > 0 && Prod(shape1) == Prod(shape2) &&
                       IndexToInt(index, shape1).value < Prod(shape2)
    ensures r.Err? ==> r.error == (if |index| != |shape1| then DimensionMismatch
                                   else if |shape1| == 0 || |shape2| == 0 then EmptyShape
                                   else if Prod(shape1) != Prod(shape2) then IncompatibleShape
                                   else IndexOutOfRange)
    ensures r.Ok? ==> InRange(r.value, shape2)
  {
    if |index| != |shape1| then Err(DimensionMismatch)
    else if |shape1| == 0 || |shape2| == 0 then Err(EmptyShape)
    else if Prod(shape1) != Prod(shape2) then Err(IncompatibleShape)
    else
      var m := IndexToInt(index, shape1).value;
      if m < Prod(shape2) then IntToIndexInRange(m, shape2); IntToIndex(m, shape2)
      else IntToIndex(m, shape2)
  }

  /** An in-range multi-index has a flat index below the product of the shape. */
  lemma {:induction false} IndexToIntBound(index: seq<nat>, shape: seq<nat>)
    requires |shape| > 0 && InRange(index, shape)
    ensures IndexToInt(index, shape).value < Prod(shape)
  {
    if |shape| > 1 {
      var init := shape[..|shape| - 1];
      var front := index[..|index| - 1];
      assert InRange(front, init);
      IndexToIntBound(front, init);
      RowMajorBound(IndexToInt(front, init).value, Prod(init), index[|index| - 1], shape[|shape| - 1]);
    }
  }

  /** Decoding a flat index and encoding it again gives it back. */
  lemma {:induction false} IntToIndexThenIndexToInt(m: nat, shape: seq<nat>)
    requires |shape| > 0 && m < Prod(shape)
    ensures IntToIndex(m, shape).Ok?
    ensures IndexToInt(IntToIndex(m, shape).value, shape) == Ok(m)
    decreases |shape|
  {
    if |shape| > 1 {
      var init, n := shape[..|shape| - 1], shape[|shape| - 1];
      assert shape == init + [n];
      ProdStep(init, n);
      var q, r := Split(m, Prod(init), n);
      IntToIndexThenIndexToInt(q, init);
      var front := IntToIndex(q, init).value;
      IntToIndexStep(q, r, init, n);
      RowMajorStep(front, init, r, n);
    } else {
      assert Prod(shape) == Prod([]) * shape[0];
    }
  }

  /** Encoding an in-range multi-index and decoding it again gives it back. */
  lemma {:induction false} IndexToIntThenIntToIndex(index: seq<nat>, shape: seq<nat>)
    requires |shape| > 0 && InRange(index, shape)
    ensures IndexToInt(index, shape).Ok?
    ensures IntToIndex(IndexToInt(index, shape).value, shape) == Ok(index)
    decreases |shape|
  {
    if |shape| > 1 {
      var init, n := shape[..|shape| - 1], shape[|shape| - 1];
      var front, i := index[..|index| - 1], index[|index| - 1];
      assert shape == init + [n] && index == front + [i];
      assert InRange(front, init);
      IndexToIntThenIntToIndex(front, init);
      IndexToIntBound(front, init);
      var f := IndexToInt(front, init).value;
      RowMajorStep(front, init, i, n);
      IntToIndexStep(f, i, init, n);
    } else {
      assert Prod(shape) == Prod([]) * shape[0];
      assert IndexToInt(index, shape) == Ok(index[0]);
      assert index == [index[0]];
    }
  }

  /** One step of the decoding: q * n + r under init + [n] is the decoding
      of q under init followed by r. */
  lemma {:induction false} IntToIndexStep(q: nat, r: nat, init: seq<nat>, n: nat)
    requires |init| > 0 && q < Prod(init) && r < n
    ensures q * n + r < Prod(init + [n])
    ensures IntToIndex(q * n + r, init + [n]) == Ok(IntToIndex(q, init).value + [r])
  {
    var sh := init + [n];
    assert sh[..|sh| - 1] == init && sh[|sh| - 1] == n;
    ProdStep(init, n);
    RowMajorBound(q, Prod(init), r, n);
    FlatDivMod(q, n, r);
  }

  /** Appending an axis of size n multiplies the product by n. */
  lemma {:induction false} ProdStep(init: seq<nat>, n: nat)
    ensures Prod(init + [n]) == Prod(init) * n
  {
    var sh := init + [n];
    assert sh[..|sh| - 1] == init;
  }

  /** Reindexing into a second shape and back restores the original index. */
  lemma {:induction false} ReindexRoundTrip(index: seq<nat>, shape1: seq<nat>, shape2: seq<nat>)
    requires InRange(index, shape1) && |shape1| > 0 && |shape2| > 0
    requires Prod(shape1) == Prod(shape2)
    ensures Reindex(index, shape1, shape2).Ok?
    ensures Reindex(Reindex(index, shape1, shape2).value, shape2, shape1) == Ok(index)
  {
    var m := IndexToInt(index, shape1).value;
    IndexToIntBound(index, shape1);
    IntToIndexThenIndexToInt(m, shape2);
    IndexToIntThenIntToIndex(index, shape1);
  }

  /** Row-major layout: appending an axis multiplies the flat index by the
      new axis size and adds the new component. */
  lemma {:induction false} RowMajorStep(index: seq<nat>, shape: seq<nat>, i: nat, n: nat)
    requires |index| == |shape| > 0
    ensures IndexToInt(index + [i], shape + [n]) == Ok(IndexToInt(index, shape).value * n + i)
  {
    var idx, sh := index + [i], shape + [n];
    assert idx[..|idx| - 1] == index;
    assert sh[..|sh| - 1] == shape;
    IndexToIntUnfold(idx, sh);
  }

  lemma {:induction false} IndexToIntUnfold(index: seq<nat>, shape: seq<nat>)
    requires |index| == |shape| > 1
    ensures IndexToInt(index, shape) ==
            Ok(IndexToInt(index[..|index| - 1], shape[..|shape| - 1]).value * shape[|shape| - 1] + index[|index| - 1])
  {
  }

  lemma {:induction false} ProdConcat(s: seq<nat>, t: seq<nat>)
    ensures Prod(s + t) == Prod(s) * Prod(t)
    decreases |t|
  {
    if |t| > 0 {
      var t' := t[..|t| - 1];
      assert (s + t)[..|s + t| - 1] == s + t';
      ProdConcat(s, t');
      calc {
        Prod(s + t);
        Prod(s + t') * t[|t| - 1];
        (Prod(s) * Prod(t')) * t[|t| - 1];
        Prod(s) * (Prod(t') * t[|t| - 1]);
      }
    } else {
      assert s + t == s;
    }
  }

  lemma {:induction false} ProdRepeat(d: nat, k: nat)
    ensures Prod(Repeat(d, k)) == Pow(d, k)
  {
    if k > 0 {
      assert Repeat(d, k) == [d] + Repeat(d, k - 1);
      ProdConcat([d], Repeat(d, k - 1));
      ProdRepeat(d, k - 1);
      assert Prod([d]) == Prod([]) * d;
    }
  }

  /** The flat index of a concatenated multi-index: the first part counts in
      blocks of the second shape's total size. */
  lemma {:induction false} IndexToIntConcat(i: seq<nat>, s: seq<nat>, j: seq<nat>, t: seq<nat>)
    requires |i| == |s| > 0 && |j| == |t| > 0
    ensures IndexToInt(i + j, s + t) ==
            Ok(IndexToInt(i, s).value * Prod(t) + IndexToInt(j, t).value)
    decreases |t|
  {
    var j', x := j[..|j| - 1], j[|j| - 1];
    var t', n := t[..|t| - 1], t[|t| - 1];
    assert j == j' + [x] && t == t' + [n];
    assert i + j == (i + j') + [x] && s + t == (s + t') + [n];
    ProdStep(t', n);
    RowMajorStep(i + j', s + t', x, n);
    var a := IndexToInt(i, s).value;
    if |j| == 1 {
      assert i + j' == i && s + t' == s;
      assert Prod(t') == 1 && IndexToInt(j, t) == Ok(x);
    } else {
      IndexToIntConcat(i, s, j', t');
      RowMajorStep(j', t', x, n);
      var b := IndexToInt(j', t').value;
      RowMajorRegroup(a, Prod(t'), b, n, x);
    }
  }
}
