/** Piecewise-linear paths, given as lists of points in R^d, their
    increments and their length. */
module Paths {
  import opened Outcome

  /** Every point has as many coordinates as the first one. */
  predicate Rectangular(X: seq<seq<real>>)
  {
    forall i :: 0 <= i < |X| ==> |X[i]| == |X[0]|
  }

  /** Entrywise difference p - q of two points; points of different lengths
      are refused. On success the result is the vector that carries q onto p. */
  function Subtract(p: seq<real>, q: seq<real>): (r: Result<seq<real>>)
    ensures r.Ok? <==> |p| == |q|
    ensures r.Err? ==> r.error == DimensionMismatch
    ensures r.Ok? ==> |r.value| == |p| && forall j :: 0 <= j < |p| ==> q[j] + r.value[j] == p[j]
  {
    if |p| != |q| then Err(DimensionMismatch)
    else Ok(seq(|p|, j requires 0 <= j < |p| => p[j] - q[j]))
  }

  /** The increment X[i+1] - X[i] between two consecutive points of equal
      length. */
  function Increment(X: seq<seq<real>>, i: nat): (v: seq<real>)
    requires i + 1 < |X| && |X[i + 1]| == |X[i]|
    ensures |v| == |X[i]| && forall j :: 0 <= j < |v| ==> X[i][j] + v[j] == X[i + 1][j]
  {
    Subtract(X[i + 1], X[i]).value
  }

  /** The N - 1 increments of a rectangular path of N >= 1 points. */
  function Increments(X: seq<seq<real>>): (incs: seq<seq<real>>)
    requires |X| > 0 && Rectangular(X)
    ensures |incs| == |X| - 1
    ensures forall i :: 0 <= i < |incs| ==> |incs[i]| == |X[0]| && incs[i] == Increment(X, i)
  {
    seq(|X| - 1, i requires 0 <= i < |X| - 1 => Increment(X, i))
  }

  /** Length of a path: the sum, first to last, of the norms of its
      increments X[i+1] - X[i]. A path of at most one point has length 0,
      and a path of two points the norm of its one increment. */
  function Length(X: seq<seq<real>>, norm: seq<real> -> real): (r: real)
    requires Rectangular(X)
    ensures |X| <= 1 ==> r == 0.0
    ensures |X| == 2 ==> r == norm(Subtract(X[1], X[0]).value)
  {
    if |X| <= 1 then 0.0
    else
      assert Rectangular(X[..|X| - 1]);
      Length(X[..|X| - 1], norm) + norm(Increment(X, |X| - 2))
  }

  /** Length of the polyline through the points X, accumulated increment by
      increment. The loop stops at the first pair of consecutive points whose
      lengths differ; the norm is a parameter. */
  method PathLength(X: seq<seq<real>>, norm: seq<real> -> real) returns (r: Result<real>)
    ensures r.Ok? <==> Rectangular(X)
    ensures r.Err? ==> r.error == DimensionMismatch
    ensures r.Ok? ==> r.value == Length(X, norm)
    ensures |X| <= 1 ==> r == Ok(0.0)
  {
    var acc := 0.0;
    var N := |X|;
    var i := 0;
    while i + 1 < N
      invariant N == 0 ==> i == 0 && acc == 0.0
      invariant N > 0 ==> i < N
      invariant forall j :: 0 <= j <= i && j < N ==> |X[j]| == |X[0]|
      invariant N > 0 ==> Rectangular(X[..i + 1]) && acc == Length(X[..i + 1], norm)
      decreases N - i
    {
      var dX := Subtract(X[i + 1], X[i]);
      if dX.Err? {
        return Err(dX.error);
      }
      acc := acc + norm(dX.value);
      assert X[..i + 2][..i + 1] == X[..i + 1];
      i := i + 1;
    }
    if N > 0 {
      assert X[..i + 1] == X;
    }
    return Ok(acc);
  }

  /** With a non-negative norm, every path has non-negative length. */
  lemma {:induction false} LengthNonNegative(X: seq<seq<real>>, norm: seq<real> -> real)
    requires Rectangular(X)
    requires forall v :: norm(v) >= 0.0
    ensures Length(X, norm) >= 0.0
  {
    if |X| > 1 {
      assert Rectangular(X[..|X| - 1]);
      LengthNonNegative(X[..|X| - 1], norm);
    }
  }

  /** Length is additive: cutting the path at point j splits its length
      into the length up to j and the length from j on. */
  lemma {:induction false} LengthSplit(X: seq<seq<real>>, norm: seq<real> -> real, j: nat)
    requires Rectangular(X) && j < |X|
    ensures Rectangular(X[..j + 1]) && Rectangular(X[j..])
    ensures Length(X[..j + 1], norm) + Length(X[j..], norm) == Length(X, norm)
  {
    assert Rectangular(X[..j + 1]) && Rectangular(X[j..]);
    if j == |X| - 1 {
      assert X[..j + 1] == X;
    } else {
      var init, tail := X[..|X| - 1], X[j..];
      assert Rectangular(init);
      LengthSplit(init, norm, j);
      assert init[..j + 1] == X[..j + 1];
      assert tail[..|tail| - 1] == init[j..];
      LengthUnfold(X, norm);
      LengthUnfold(tail, norm);
      assert Increment(tail, |tail| - 2) == Increment(X, |X| - 2) by {
        assert tail[|tail| - 1] == X[|X| - 1] && tail[|tail| - 2] == X[|X| - 2];
      }
    }
  }

  lemma {:induction false} LengthUnfold(X: seq<seq<real>>, norm: seq<real> -> real)
    requires Rectangular(X) && |X| > 1
    ensures Rectangular(X[..|X| - 1])
    ensures Length(X, norm) == Length(X[..|X| - 1], norm) + norm(Increment(X, |X| - 2))
  {
  }

  /** The increment between two points depends only on the two points. */
  lemma {:induction false} IncrementOfPoints(X: seq<seq<real>>, i: nat, Z: seq<seq<real>>, j: nat)
    requires i + 1 < |X| && |X[i + 1]| == |X[i]| && j + 1 < |Z|
    requires Z[j] == X[i] && Z[j + 1] == X[i + 1]
    ensures Increment(X, i) == Increment(Z, j)
  {
  }

  /** Cutting the path at point j splits its increments into those up to j
      and those from j on. */
  lemma {:induction false} IncrementsSplit(X: seq<seq<real>>, j: nat)
    requires Rectangular(X) && j < |X|
    ensures Rectangular(X[..j + 1]) && Rectangular(X[j..])
    ensures Increments(X) == Increments(X[..j + 1]) + Increments(X[j..])
  {
    var L, R := X[..j + 1], X[j..];
    assert Rectangular(L) && Rectangular(R);
    var I, IL, IR := Increments(X), Increments(L), Increments(R);
    forall i | 0 <= i < |I| ensures I[i] == (IL + IR)[i] {
      if i < j {
        IncrementOfPoints(X, i, L, i);
      } else {
        IncrementOfPoints(X, i, R, i - j);
      }
    }
  }
}
