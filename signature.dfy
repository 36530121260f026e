/** The truncated signature of a piecewise-linear path: for each increment
    the local tensors v^(k) / k!, folded together increment by increment
    with Chen's identity. A signature truncated at level n over R^d is a
    list of n + 1 flat tensors, level k holding d^k entries. */
module PathSignature {
  import opened Outcome
  import opened Numbers
  import opened IndexCodec
  import opened TensorAlgebra
  import opened Paths

  /** n + 1 levels over R^d, level k holding d^k entries. */
  predicate Graded(S: seq<seq<real>>, d: nat, n: nat)
  {
    |S| == n + 1 && forall k :: 0 <= k <= n ==> |S[k]| == Pow(d, k)
  }

  /** Level k of the signature of a single linear segment with increment v:
      the k-fold power of v divided by k!. */
  function Level(v: seq<real>, k: nat): (t: seq<real>)
    ensures |t| == Pow(|v|, k)
  {
    Divide(TensorPow(v, k), Fact(k) as real)
  }

  /** Signature of a single linear segment with increment v, levels 0 .. n. */
  function Segment(v: seq<real>, n: nat): (S: seq<seq<real>>)
    ensures Graded(S, |v|, n)
  {
    seq(n + 1, k requires 0 <= k <= n => Level(v, k))
  }

  /** The first m terms, l = 0 .. m - 1, of level k of the Chen product of S
      and T, added one after the other onto the zero tensor of level k. */
  function ChenSum(S: seq<seq<real>>, T: seq<seq<real>>, d: nat, n: nat, k: nat, m: nat): (r: seq<real>)
    requires Graded(S, d, n) && Graded(T, d, n) && k <= n && m <= k + 1
    ensures |r| == Pow(d, k)
  {
    if m == 0 then Zeros(|S[k]|)
    else
      PowAdd(d, m - 1, k - (m - 1));
      Add(ChenSum(S, T, d, n, k, m - 1), TensorProduct(S[m - 1], T[k - (m - 1)]))
  }

  /** Adding the term l to the first l terms gives the first l + 1. */
  lemma {:induction false} ChenSumStep(S: seq<seq<real>>, T: seq<seq<real>>, d: nat, n: nat, k: nat, l: nat)
    requires Graded(S, d, n) && Graded(T, d, n) && l <= k <= n
    ensures |S[l]| * |T[k - l]| == Pow(d, k)
    ensures ChenSum(S, T, d, n, k, l + 1) == Add(ChenSum(S, T, d, n, k, l), TensorProduct(S[l], T[k - l]))
  {
    PowAdd(d, l, k - l);
  }

  /** Chen product of two truncated signatures: level 0 is the unit scalar
      and level k >= 1 is the sum over l = 0 .. k of S[l] (x) T[k - l]. */
  function Chen(S: seq<seq<real>>, T: seq<seq<real>>, d: nat, n: nat): (U: seq<seq<real>>)
    requires Graded(S, d, n) && Graded(T, d, n)
    ensures Graded(U, d, n) && U[0] == [1.0]
  {
    seq(n + 1, k requires 0 <= k <= n => ChenLevel(S, T, d, n, k))
  }

  /** Level k of the Chen product. */
  function ChenLevel(S: seq<seq<real>>, T: seq<seq<real>>, d: nat, n: nat, k: nat): (t: seq<real>)
    requires Graded(S, d, n) && Graded(T, d, n) && k <= n
    ensures |t| == Pow(d, k)
  {
    if k == 0 then [1.0] else ChenSum(S, T, d, n, k, k + 1)
  }

  /** Signature of the path with increments incs (at least one), built from
      the first increment on: the signature of all but the last increment,
      Chen-multiplied by the segment signature of the last. */
  function Signature(incs: seq<seq<real>>, d: nat, n: nat): (S: seq<seq<real>>)
    requires |incs| > 0 && forall i :: 0 <= i < |incs| ==> |incs[i]| == d
    ensures Graded(S, d, n) && S[0] == [1.0]
    decreases |incs|
  {
    if |incs| == 1 then
      SegmentLevelZero(incs[0], n);
      Segment(incs[0], n)
    else
      Chen(Signature(incs[..|incs| - 1], d, n), Segment(incs[|incs| - 1], n), d, n)
  }

  /** Signature of a path of points: a path of one point is read as the
      path that stays at that point. */
  function PathSig(X: seq<seq<real>>, n: nat): (S: seq<seq<real>>)
    requires |X| > 0 && |X[0]| > 0 && Rectangular(X)
    ensures Graded(S, |X[0]|, n) && S[0] == [1.0]
    decreases |X| == 1
  {
    if |X| == 1 then PathSig([X[0], X[0]], n)
    else Signature(Increments(X), |X[0]|, n)
  }

  /** Level 0 of a segment signature is the unit scalar. */
  lemma {:induction false} SegmentLevelZero(v: seq<real>, n: nat)
    ensures Segment(v, n)[0] == [1.0]
  {
    assert TensorPow(v, 0) == [1.0];
  }

  /** Truncated signature of the path X up to level n: the segment
      signatures of the increments are tabulated, folded together with
      Chen's identity, and the last row of the fold is returned. */
  method Sig(X: seq<seq<real>>, n: nat) returns (r: Result<seq<seq<real>>>)
    ensures r.Ok? <==> |X| > 0 && |X[0]| > 0 && Rectangular(X)
    ensures r.Err? ==> r.error == (if |X| == 0 then NotAMatrix
                                   else if |X[0]| == 0 then NonPositiveDimension
                                   else DimensionMismatch)
    ensures r.Ok? ==> r.value == PathSig(X, n)
    decreases |X| == 1
  {
    if |X| == 0 {
      return Err(NotAMatrix);
    }
    var N, d := |X|, |X[0]|;
    if d == 0 {
      return Err(NonPositiveDimension);
    }
    if N == 1 {
      r := Sig([X[0], X[0]], n);
      return;
    }
    var table := SegmentTable(X, n);
    if table.Err? {
      return Err(table.error);
    }
    var B := ChenFold(table.value, d, n, Increments(X));
    var last := LastRow(B, n);
    LevelsEqual(last, Signature(Increments(X), d, n), n);
    PathSigUnfold(X, n);
    r := Ok(last);
  }

  /** The levels of the last row of the fold, read out of B. */
  method LastRow(B: array2<seq<real>>, n: nat) returns (S: seq<seq<real>>)
    requires B.Length0 > 0 && B.Length1 == n + 1
    ensures |S| == n + 1 && forall k :: 0 <= k <= n ==> S[k] == B[B.Length0 - 1, k]
  {
    S := seq(n + 1, k requires 0 <= k <= n reads B => B[B.Length0 - 1, k]);
  }

  /** Two lists of n + 1 levels that agree level by level are equal. */
  lemma {:induction false} LevelsEqual(S: seq<seq<real>>, T: seq<seq<real>>, n: nat)
    requires |S| == |T| == n + 1 && forall k :: 0 <= k <= n ==> S[k] == T[k]
    ensures S == T
  {
  }

  /** The signature of a path of two or more points is the signature of its
      increments. */
  lemma {:induction false} PathSigUnfold(X: seq<seq<real>>, n: nat)
    requires |X| > 1 && |X[0]| > 0 && Rectangular(X)
    ensures PathSig(X, n) == Signature(Increments(X), |X[0]|, n)
  {
  }

  /** Row i of the table A holds the segment signature of the increment
      X[i+1] - X[i], level by level. The first pair of consecutive points
      of different lengths stops the tabulation with DimensionMismatch. */
  method SegmentTable(X: seq<seq<real>>, n: nat) returns (r: Result<array2<seq<real>>>)
    requires |X| > 1
    ensures r.Ok? <==> Rectangular(X)
    ensures r.Err? ==> r.error == DimensionMismatch
    ensures r.Ok? ==> fresh(r.value) && r.value.Length0 == |X| - 1 && r.value.Length1 == n + 1
    ensures r.Ok? ==> forall i, k :: 0 <= i < |X| - 1 && 0 <= k <= n ==> r.value[i, k] == Level(Increment(X, i), k)
  {
    var N, d := |X|, |X[0]|;
    var A := new seq<real>[N - 1, n + 1];
    for i := 0 to N - 1
      invariant forall j :: 0 <= j <= i ==> |X[j]| == d
      invariant forall i', k :: 0 <= i' < i && 0 <= k <= n ==> A[i', k] == Level(Increment(X, i'), k)
    {
      var dX := Subtract(X[i + 1], X[i]);
      if dX.Err? {
        return Err(dX.error);
      }
      for k := 0 to n + 1
        invariant forall i', k' :: 0 <= i' < i && 0 <= k' <= n ==> A[i', k'] == Level(Increment(X, i'), k')
        invariant forall k' :: 0 <= k' < k ==> A[i, k'] == Level(dX.value, k')
      {
        A[i, k] := Level(dX.value, k);
      }
    }
    return Ok(A);
  }

  /** Chen fold of the table A of segment signatures of the increments incs:
      row 0 of B is row 0 of A, and row i of B is the Chen product of row
      i - 1 of B and row i of A, so that row i holds the signature of the
      first i + 1 increments. */
  method ChenFold(A: array2<seq<real>>, d: nat, n: nat, ghost incs: seq<seq<real>>)
    returns (B: array2<seq<real>>)
    requires |incs| == A.Length0 > 0 && A.Length1 == n + 1
    requires forall i :: 0 <= i < |incs| ==> |incs[i]| == d
    requires forall i, k :: 0 <= i < |incs| && 0 <= k <= n ==> A[i, k] == Segment(incs[i], n)[k]
    ensures fresh(B) && B.Length0 == A.Length0 && B.Length1 == n + 1
    ensures forall i, k :: 0 <= i < A.Length0 && 0 <= k <= n ==> B[i, k] == PrefixSignature(incs, d, n, i)[k]
    ensures forall k :: 0 <= k <= n ==> B[A.Length0 - 1, k] == Signature(incs, d, n)[k]
  {
    var N := A.Length0 + 1;
    B := new seq<real>[N - 1, n + 1];
    forall k | 0 <= k <= n {
      B[0, k] := A[0, k];
    }
    PrefixSignatureFirst(incs, d, n);
    for i := 1 to N - 1
      modifies B
      invariant forall i', k :: 0 <= i' < i && 0 <= k <= n ==> B[i', k] == PrefixSignature(incs, d, n, i')[k]
    {
      ghost var S, T := PrefixSignature(incs, d, n, i - 1), Segment(incs[i], n);
      ChenRow(A, B, i, d, n, S, T);
      SignatureStep(incs, d, n, i);
    }
    PrefixSignatureLast(incs, d, n);
  }

  /** Row i of B becomes the Chen product of row i - 1 of B (the levels S)
      and row i of A (the levels T): level 0 is the unit scalar and every
      other level is summed by ChenLevelSum. */
  method ChenRow(A: array2<seq<real>>, B: array2<seq<real>>, i: nat, d: nat, n: nat,
                 ghost S: seq<seq<real>>, ghost T: seq<seq<real>>)
    requires A != B && 0 < i < B.Length0 && i < A.Length0 && A.Length1 == B.Length1 == n + 1
    requires Graded(S, d, n) && Graded(T, d, n)
    requires forall l :: 0 <= l <= n ==> B[i - 1, l] == S[l] && A[i, l] == T[l]
    modifies B
    ensures forall k :: 0 <= k <= n ==> B[i, k] == Chen(S, T, d, n)[k]
    ensures forall i', k :: 0 <= i' < B.Length0 && i' != i && 0 <= k <= n ==> B[i', k] == old(B[i', k])
  {
    B[i, 0] := [1.0];
    for k := 1 to n + 1
      invariant forall l :: 0 <= l <= n ==> B[i - 1, l] == S[l]
      invariant forall k' :: 0 <= k' < k ==> B[i, k'] == ChenLevel(S, T, d, n, k')
      invariant forall i', k' :: 0 <= i' < B.Length0 && i' != i && 0 <= k' <= n ==> B[i', k'] == old(B[i', k'])
    {
      var temp := ChenLevelSum(A, B, i, d, n, k, S, T);
      B[i, k] := temp;
    }
  }

  /** Level k >= 1 of the Chen product of row i - 1 of B and row i of A,
      accumulated term by term, l = 0 .. k, into a tensor that starts at
      zero. */
  method ChenLevelSum(A: array2<seq<real>>, B: array2<seq<real>>, i: nat, d: nat, n: nat, k: nat,
                      ghost S: seq<seq<real>>, ghost T: seq<seq<real>>) returns (temp: seq<real>)
    requires 0 < i < B.Length0 && i < A.Length0 && A.Length1 == B.Length1 == n + 1
    requires Graded(S, d, n) && Graded(T, d, n) && 1 <= k <= n
    requires forall l :: 0 <= l <= n ==> B[i - 1, l] == S[l] && A[i, l] == T[l]
    ensures temp == ChenLevel(S, T, d, n, k)
  {
    temp := Zeros(|B[i - 1, k]|);
    for l := 0 to k + 1
      invariant temp == ChenSum(S, T, d, n, k, l)
    {
      var x, y := B[i - 1, l], A[i, k - l];
      assert x == S[l] && y == T[k - l];
      ChenSumStep(S, T, d, n, k, l);
      temp := Add(temp, TensorProduct(x, y));
    }
  }

  /** Signature of the first i + 1 increments. */
  function PrefixSignature(incs: seq<seq<real>>, d: nat, n: nat, i: nat): (S: seq<seq<real>>)
    requires i < |incs| && forall j :: 0 <= j < |incs| ==> |incs[j]| == d
    ensures Graded(S, d, n) && S[0] == [1.0]
  {
    Signature(incs[..i + 1], d, n)
  }

  /** The first prefix signature is the segment signature of increment 0. */
  lemma {:induction false} PrefixSignatureFirst(incs: seq<seq<real>>, d: nat, n: nat)
    requires |incs| > 0 && forall j :: 0 <= j < |incs| ==> |incs[j]| == d
    ensures PrefixSignature(incs, d, n, 0) == Segment(incs[0], n)
  {
    assert incs[..1] == [incs[0]];
  }

  /** The last prefix signature is the signature of all the increments. */
  lemma {:induction false} PrefixSignatureLast(incs: seq<seq<real>>, d: nat, n: nat)
    requires |incs| > 0 && forall j :: 0 <= j < |incs| ==> |incs[j]| == d
    ensures PrefixSignature(incs, d, n, |incs| - 1) == Signature(incs, d, n)
  {
    assert incs[..|incs|] == incs;
  }

  /** One Chen step: the signature of the first i + 1 increments is the
      signature of the first i, Chen-multiplied by the segment of increment i. */
  lemma {:induction false} SignatureStep(incs: seq<seq<real>>, d: nat, n: nat, i: nat)
    requires 0 < i < |incs| && forall j :: 0 <= j < |incs| ==> |incs[j]| == d
    ensures PrefixSignature(incs, d, n, i) == Chen(PrefixSignature(incs, d, n, i - 1), Segment(incs[i], n), d, n)
  {
    PrefixOfPrefix(incs, i);
    SignatureUnfold(incs[..i + 1], d, n, incs[..i], incs[i]);
  }

  lemma {:induction false} PrefixOfPrefix(incs: seq<seq<real>>, i: nat)
    requires i < |incs|
    ensures incs[..i + 1][..i] == incs[..i] && incs[..i + 1][i] == incs[i]
  {
  }

  /** The signature of two or more increments is that of all but the last,
      Chen-multiplied by the segment signature of the last. */
  lemma {:induction false} SignatureUnfold(incs: seq<seq<real>>, d: nat, n: nat, init: seq<seq<real>>, v: seq<real>)
    requires |incs| > 1 && forall i :: 0 <= i < |incs| ==> |incs[i]| == d
    requires init == incs[..|incs| - 1] && v == incs[|incs| - 1]
    ensures Signature(incs, d, n) == Chen(Signature(init, d, n), Segment(v, n), d, n)
  {
  }

  /** Level 1 of a segment signature is the increment itself. */
  lemma {:induction false} SegmentLevelOne(v: seq<real>, n: nat)
    requires n >= 1
    ensures Segment(v, n)[1] == v
  {
    TensorPowOne(v);
    assert Fact(1) == 1;
    var t := Level(v, 1);
    forall j | 0 <= j < |v| ensures t[j] == v[j] {
      assert t[j] == TensorPow(v, 1)[j] / 1.0;
    }
  }

  /** Entry (i1, ..., ik) of level k >= 1 of a segment signature is
      v[i1] * ... * v[ik] / k!. */
  lemma {:induction false} SegmentEntry(v: seq<real>, n: nat, index: seq<nat>, p: nat)
    requires 0 < |index| <= n && InRange(index, Repeat(|v|, |index|))
    requires IndexToInt(index, Repeat(|v|, |index|)) == Ok(p)
    ensures p < |Segment(v, n)[|index|]|
    ensures Segment(v, n)[|index|][p] == Monomial(v, index) / (Fact(|index|) as real)
  {
    var k := |index|;
    var t := TensorPow(v, k);
    TensorPowAt(v, t, index, p);
    assert Segment(v, n)[k] == Divide(t, Fact(k) as real);
  }

  /** Every level k >= 1 of the segment signature of the zero vector is zero. */
  lemma {:induction false} ZeroSegmentLevel(d: nat, n: nat, k: nat)
    requires 1 <= k <= n
    ensures Segment(Zeros(d), n)[k] == Zeros(Pow(d, k))
  {
    TensorPowOfZero(d, k);
    var t := Segment(Zeros(d), n)[k];
    assert t == Divide(Zeros(Pow(d, k)), Fact(k) as real);
    forall j | 0 <= j < |t| ensures t[j] == 0.0 {
      assert t[j] == 0.0 / (Fact(k) as real);
    }
  }

  /** A path of one point is read as a path that stays put: its signature
      is the unit scalar at level 0 and the zero tensor at every level
      1 .. n. */
  lemma {:induction false} OnePointPath(x: seq<real>, n: nat)
    requires |x| > 0
    ensures forall k :: 1 <= k <= n ==> PathSig([x], n)[k] == Zeros(Pow(|x|, k))
  {
    var d, X := |x|, [x, x];
    var v := Increment(X, 0);
    assert v == Zeros(d) by {
      forall j | 0 <= j < d ensures v[j] == 0.0 {
        assert x[j] + v[j] == x[j];
      }
    }
    assert Increments(X) == [v];
    assert PathSig([x], n) == Segment(v, n);
    forall k | 1 <= k <= n ensures PathSig([x], n)[k] == Zeros(Pow(d, k)) {
      ZeroSegmentLevel(d, n, k);
    }
  }

  /** A path of two points is a single segment: its signature is the
      segment signature of the increment, so level 1 is the increment and
      entry (i1, ..., ik) of level k is the product of those coordinates of
      the increment over k!. */
  lemma {:induction false} SingleSegment(X: seq<seq<real>>, n: nat)
    requires |X| == 2 && |X[0]| > 0 && Rectangular(X)
    ensures PathSig(X, n) == Segment(Increment(X, 0), n)
    ensures n >= 1 ==> forall j :: 0 <= j < |X[0]| ==> X[0][j] + PathSig(X, n)[1][j] == X[1][j]
  {
    var v := Increment(X, 0);
    assert Increments(X) == [v];
    if n >= 1 {
      SegmentLevelOne(v, n);
    }
  }

  /** Sum of the coordinates j of a list of vectors. */
  function ColumnSum(vs: seq<seq<real>>, j: nat): real
    requires forall i :: 0 <= i < |vs| ==> j < |vs[i]|
  {
    if |vs| == 0 then 0.0 else ColumnSum(vs[..|vs| - 1], j) + vs[|vs| - 1][j]
  }

  /** Level 1 of a Chen product of two signatures is the sum of their
      levels 1. */
  lemma {:induction false} ChenLevelOne(S: seq<seq<real>>, T: seq<seq<real>>, d: nat, n: nat)
    requires Graded(S, d, n) && Graded(T, d, n) && n >= 1
    requires S[0] == [1.0] && T[0] == [1.0]
    ensures forall j :: 0 <= j < d ==> Chen(S, T, d, n)[1][j] == S[1][j] + T[1][j]
  {
    assert Pow(d, 1) == d;
    ScalarTimes(1.0, T[1]);
    TimesUnit(S[1]);
    var z := Zeros(d);
    var u := Add(z, TensorProduct(S[0], T[1]));
    assert ChenSum(S, T, d, n, 1, 1) == u;
    assert Chen(S, T, d, n)[1] == Add(u, TensorProduct(S[1], T[0]));
  }

  /** Level 1 of the signature of a list of increments is their sum. */
  lemma {:induction false} SignatureLevelOne(incs: seq<seq<real>>, d: nat, n: nat)
    requires |incs| > 0 && forall i :: 0 <= i < |incs| ==> |incs[i]| == d
    requires n >= 1
    ensures forall j :: 0 <= j < d ==> Signature(incs, d, n)[1][j] == ColumnSum(incs, j)
    decreases |incs|
  {
    var last := incs[|incs| - 1];
    var init := incs[..|incs| - 1];
    SegmentLevelOne(last, n);
    if |incs| == 1 {
      assert init == [];
    } else {
      SignatureLevelOne(init, d, n);
      ChenLevelOne(Signature(init, d, n), Segment(last, n), d, n);
    }
  }

  /** The increments of a path telescope: their sum is the last point minus
      the first. */
  lemma {:induction false} Telescope(X: seq<seq<real>>, j: nat)
    requires |X| > 0 && Rectangular(X) && j < |X[0]|
    ensures X[0][j] + ColumnSum(Increments(X), j) == X[|X| - 1][j]
    decreases |X|
  {
    var incs := Increments(X);
    if |X| > 1 {
      var init := X[..|X| - 1];
      assert Rectangular(init);
      Telescope(init, j);
      assert Increments(init) == incs[..|incs| - 1];
    } else {
      assert incs == [];
    }
  }

  /** Level 1 of the signature of a path is its total displacement, the
      last point minus the first. */
  lemma {:induction false} PathLevelOne(X: seq<seq<real>>, n: nat)
    requires |X| > 0 && |X[0]| > 0 && Rectangular(X) && n >= 1
    ensures forall j :: 0 <= j < |X[0]| ==> X[0][j] + PathSig(X, n)[1][j] == X[|X| - 1][j]
  {
    var d := |X[0]|;
    if |X| == 1 {
      OnePointPath(X[0], n);
      assert Pow(d, 1) == d;
    } else {
      SignatureLevelOne(Increments(X), d, n);
      forall j | 0 <= j < d ensures X[0][j] + PathSig(X, n)[1][j] == X[|X| - 1][j] {
        Telescope(X, j);
      }
    }
  }
}
