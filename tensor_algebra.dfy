/** Tensor product and tensor power. A tensor of level k over R^d is stored
    flat, as d^k reals in row-major order (last axis fastest); a scalar is a
    one-entry tensor. */
module TensorAlgebra {
  import opened Outcome
  import opened Numbers
  import opened IndexCodec

  /** Every entry of t multiplied by the scalar c. */
  function Scale(c: real, t: seq<real>): (r: seq<real>)
    ensures |r| == |t|
  {
    seq(|t|, j requires 0 <= j < |t| => t[j] * c)
  }

  /** Entrywise sum of two tensors of the same size. */
  function Add(a: seq<real>, b: seq<real>): (r: seq<real>)
    requires |a| == |b|
    ensures |r| == |a|
  {
    seq(|a|, j requires 0 <= j < |a| => a[j] + b[j])
  }

  /** Every entry of t divided by the non-zero scalar c. */
  function Divide(t: seq<real>, c: real): (r: seq<real>)
    requires c != 0.0
    ensures |r| == |t|
  {
    seq(|t|, j requires 0 <= j < |t| => t[j] / c)
  }

  /** The all-zero tensor with m entries. */
  function Zeros(m: nat): (r: seq<real>)
    ensures |r| == m
  {
    seq(m, _ => 0.0)
  }

  /** Outer product: each entry x of a, in order, is replaced by the block b
      scaled by x, so that the blocks b * a[0], b * a[1], ... follow one
      another. The result has the shape of a followed by the shape of b; a
      one-entry (scalar) a scales every entry of b. */
  function TensorProduct(a: seq<real>, b: seq<real>): (r: seq<real>)
    ensures |r| == |a| * |b|
  {
    seq(|a| * |b|, p => Cell(a, b, p))
  }

  /** Flat position p of the outer product: inside the first block, at b[p]
      scaled by a[0], or else p - |b| positions into the product of the
      rest of a with b. A position outside the product gives 0. */
  function Cell(a: seq<real>, b: seq<real>, p: int): real
    decreases |a|
  {
    if |a| == 0 || |b| == 0 || p < 0 then 0.0
    else if p < |b| then b[p] * a[0]
    else Cell(a[1..], b, p - |b|)
  }

  lemma {:induction false} CellAt(a: seq<real>, b: seq<real>, i: nat, j: nat, p: nat)
    requires i < |a| && j < |b| && p == i * |b| + j
    ensures Cell(a, b, p) == b[j] * a[i]
    decreases i
  {
    if i > 0 {
      assert p - |b| == (i - 1) * |b| + j;
      CellAt(a[1..], b, i - 1, j, p - |b|);
    }
  }

  /** Entry (i, j) of the outer product sits at flat position i * |b| + j
      and is a[i] * b[j]. */
  lemma {:induction false} TensorProductEntry(a: seq<real>, b: seq<real>, i: nat, j: nat, p: nat)
    requires i < |a| && j < |b| && p == i * |b| + j
    ensures p < |TensorProduct(a, b)|
    ensures TensorProduct(a, b)[p] == a[i] * b[j]
  {
    RowMajorBound(i, |a|, j, |b|);
    CellAt(a, b, i, j, p);
  }

  /** k-fold tensor power: the unit scalar for k = 0, otherwise a times the
      (k-1)-fold power. A level-k power of a d-vector has d^k entries. */
  function TensorPow(a: seq<real>, k: nat): (r: seq<real>)
    ensures |r| == Pow(|a|, k)
  {
    if k == 0 then [1.0] else TensorProduct(a, TensorPow(a, k - 1))
  }

  /** Product of the entries of a picked out by a multi-index, outermost
      first. A component outside a contributes 0; an in-range multi-index
      never has one. */
  function Monomial(a: seq<real>, index: seq<nat>): real
  {
    if |index| == 0 then 1.0
    else if index[0] < |a| then a[index[0]] * Monomial(a, index[1..])
    else 0.0
  }

  /** Layout of the tensor product: for multi-indices i under shape s (flat
      position x) and j under shape t (flat position y), the entry at the
      concatenated multi-index under the concatenated shape is a[x] * b[y],
      so the result's shape is the shape of a followed by the shape of b. */
  lemma {:induction false} TensorProductAt(a: seq<real>, b: seq<real>, i: seq<nat>, s: seq<nat>, j: seq<nat>, t: seq<nat>,
                        x: nat, y: nat)
    requires |s| > 0 && |t| > 0 && Prod(s) == |a| && Prod(t) == |b|
    requires InRange(i, s) && InRange(j, t)
    requires IndexToInt(i, s) == Ok(x) && IndexToInt(j, t) == Ok(y)
    ensures x < |a| && y < |b| && Prod(s + t) == |TensorProduct(a, b)|
    ensures IndexToInt(i + j, s + t).Ok? && IndexToInt(i + j, s + t).value < |TensorProduct(a, b)|
    ensures TensorProduct(a, b)[IndexToInt(i + j, s + t).value] == a[x] * b[y]
  {
    IndexToIntBound(i, s);
    IndexToIntBound(j, t);
    IndexToIntConcat(i, s, j, t);
    ProdConcat(s, t);
    var p := x * |b| + y;
    assert IndexToInt(i + j, s + t) == Ok(p);
    TensorProductEntry(a, b, x, y, p);
  }

  /** Flat position p of the outer product lies in block p / |b|, at offset
      p % |b| inside it. */
  lemma {:induction false} TensorProductFlat(a: seq<real>, b: seq<real>, p: nat)
    requires p < |a| * |b|
    ensures p / |b| < |a| && p % |b| < |b|
    ensures TensorProduct(a, b)[p] == a[p / |b|] * b[p % |b|]
  {
    var i, j := Split(p, |a|, |b|);
    FlatDivMod(i, |b|, j);
    TensorProductEntry(a, b, i, j, p);
  }

  /** A scalar (one-entry) left operand scales every entry of b. */
  lemma {:induction false} ScalarTimes(c: real, b: seq<real>)
    ensures TensorProduct([c], b) == Scale(c, b)
  {
    forall p | 0 <= p < |b| ensures TensorProduct([c], b)[p] == Scale(c, b)[p] {
      TensorProductEntry([c], b, 0, p, p);
    }
  }

  /** The unit scalar on the right leaves a tensor unchanged. */
  lemma {:induction false} TimesUnit(a: seq<real>)
    ensures TensorProduct(a, [1.0]) == a
  {
    forall p | 0 <= p < |a| ensures TensorProduct(a, [1.0])[p] == a[p] {
      TensorProductEntry(a, [1.0], p, 0, p);
    }
  }

  /** The zero tensor on the right gives zero. */
  lemma {:induction false} TimesZeros(a: seq<real>, m: nat)
    ensures TensorProduct(a, Zeros(m)) == Zeros(|a| * m)
  {
    forall p | 0 <= p < |a| * m ensures TensorProduct(a, Zeros(m))[p] == 0.0 {
      TimesZerosAt(a, m, p);
    }
  }

  lemma {:induction false} TimesZerosAt(a: seq<real>, m: nat, p: nat)
    requires p < |a| * m
    ensures TensorProduct(a, Zeros(m))[p] == 0.0
  {
    TensorProductFlat(a, Zeros(m), p);
  }

  /** The zero tensor on the left gives zero. */
  lemma {:induction false} ZeroTimes(d: nat, b: seq<real>)
    ensures TensorProduct(Zeros(d), b) == Zeros(d * |b|)
  {
    forall p | 0 <= p < d * |b| ensures TensorProduct(Zeros(d), b)[p] == 0.0 {
      ZeroTimesAt(d, b, p);
    }
  }

  lemma {:induction false} ZeroTimesAt(d: nat, b: seq<real>, p: nat)
    requires p < d * |b|
    ensures TensorProduct(Zeros(d), b)[p] == 0.0
  {
    TensorProductFlat(Zeros(d), b, p);
  }

  /** The first tensor power of a vector is the vector itself. */
  lemma {:induction false} TensorPowOne(a: seq<real>)
    ensures TensorPow(a, 1) == a
  {
    assert TensorPow(a, 0) == [1.0];
    TimesUnit(a);
  }

  /** The entry of the k-fold power t at multi-index (i1, ..., ik), flat
      position p, is a[i1] * ... * a[ik]. */
  lemma {:induction false} TensorPowAt(a: seq<real>, t: seq<real>, index: seq<nat>, p: nat)
    requires t == TensorPow(a, |index|)
    requires |index| > 0 && InRange(index, Repeat(|a|, |index|))
    requires IndexToInt(index, Repeat(|a|, |index|)) == Ok(p)
    ensures p < |t| && t[p] == Monomial(a, index)
    decreases |index|
  {
    var d, k := |a|, |index|;
    if k == 1 {
      MonomialOne(a, index, p);
    } else {
      var rest := index[1..];
      var q := IndexToInt(rest, Repeat(d, k - 1)).value;
      var b := TensorPow(a, k - 1);
      assert InRange(rest, Repeat(d, k - 1));
      TensorPowAt(a, b, rest, q);
      LeadingAxis(index, d, q);
      assert t == TensorProduct(a, b);
      BlockMonomial(a, b, index, q, p);
    }
  }

  /** Block i0 of a tensor product a (x) b is b scaled by a[i0]: an entry of b
      that is a monomial over the tail of a multi-index becomes, at the
      matching position p of the product, the monomial over the whole index. */
  lemma {:induction false} BlockMonomial(a: seq<real>, b: seq<real>, index: seq<nat>, q: nat, p: nat)
    requires |index| > 0 && index[0] < |a|
    requires q < |b| && p == index[0] * |b| + q && b[q] == Monomial(a, index[1..])
    ensures p < |TensorProduct(a, b)| && TensorProduct(a, b)[p] == Monomial(a, index)
  {
    KnownRightEntry(a, b, index[0], q, p, Monomial(a, index[1..]));
    MonomialCons(a, index);
  }

  lemma {:induction false} MonomialCons(a: seq<real>, index: seq<nat>)
    requires |index| > 0 && index[0] < |a|
    ensures Monomial(a, index) == a[index[0]] * Monomial(a, index[1..])
  {
  }

  lemma {:induction false} MonomialOne(a: seq<real>, index: seq<nat>, p: nat)
    requires |index| == 1 && index[0] < |a|
    requires IndexToInt(index, Repeat(|a|, 1)) == Ok(p)
    ensures p < |TensorPow(a, 1)| && TensorPow(a, 1)[p] == Monomial(a, index)
  {
    TensorPowOne(a);
    assert Monomial(a, index) == a[index[0]] * 1.0;
  }

  /** Under the shape [d, ..., d], the leading component of a multi-index
      counts in blocks of d^(k-1). */
  lemma {:induction false} LeadingAxis(index: seq<nat>, d: nat, q: nat)
    requires |index| > 1
    requires IndexToInt(index[1..], Repeat(d, |index| - 1)) == Ok(q)
    ensures IndexToInt(index, Repeat(d, |index|)) == Ok(index[0] * Pow(d, |index| - 1) + q)
  {
    var k := |index|;
    assert index == [index[0]] + index[1..];
    assert Repeat(d, k) == [d] + Repeat(d, k - 1);
    IndexToIntConcat([index[0]], [d], index[1..], Repeat(d, k - 1));
    ProdRepeat(d, k - 1);
  }

  /** Any power of level at least one of the zero vector is zero. */
  lemma {:induction false} TensorPowOfZero(d: nat, k: nat)
    requires k > 0
    ensures TensorPow(Zeros(d), k) == Zeros(Pow(d, k))
  {
    ZeroTimes(d, TensorPow(Zeros(d), k - 1));
  }

  /** The tensor product is associative: (a (x) b) (x) c and a (x) (b (x) c)
      agree entry by entry, both being a[i] * b[j] * c[k] at the
      row-major position of (i, j, k). */
  lemma {:induction false} TensorProductAssoc(a: seq<real>, b: seq<real>, c: seq<real>)
    ensures TensorProduct(TensorProduct(a, b), c) == TensorProduct(a, TensorProduct(b, c))
  {
    var left, right := TensorProduct(TensorProduct(a, b), c), TensorProduct(a, TensorProduct(b, c));
    MulAssoc(|a|, |b|, |c|);
    forall p | 0 <= p < |left| ensures left[p] == right[p] {
      TensorProductAssocAt(a, b, c, p);
    }
  }

  lemma {:induction false} TensorProductAssocAt(a: seq<real>, b: seq<real>, c: seq<real>, p: nat)
    requires p < (|a| * |b|) * |c|
    ensures p < |TensorProduct(a, TensorProduct(b, c))|
    ensures TensorProduct(TensorProduct(a, b), c)[p] == TensorProduct(a, TensorProduct(b, c))[p]
  {
    var q, k := Split(p, |a| * |b|, |c|);
    var i, j := Split(q, |a|, |b|);
    var s := j * |c| + k;
    RowMajorRegroup(i, |b|, j, |c|, k);
    ProductOfProductAtLeft(a, b, c, i, j, k, q, p);
    ProductOfProductAtRight(a, b, c, i, j, k, s, p);
    RealMulAssoc(a[i], b[j], c[k]);
  }

  /** Entry (i, j, k) of (a (x) b) (x) c. */
  lemma {:induction false} ProductOfProductAtLeft(a: seq<real>, b: seq<real>, c: seq<real>, i: nat, j: nat, k: nat, q: nat, p: nat)
    requires i < |a| && j < |b| && k < |c| && q == i * |b| + j && p == q * |c| + k
    ensures p < |TensorProduct(TensorProduct(a, b), c)|
    ensures TensorProduct(TensorProduct(a, b), c)[p] == (a[i] * b[j]) * c[k]
  {
    TensorProductEntry(a, b, i, j, q);
    KnownLeftEntry(TensorProduct(a, b), c, q, k, p, a[i] * b[j]);
  }

  /** Entry (i, j, k) of a (x) (b (x) c). */
  lemma {:induction false} ProductOfProductAtRight(a: seq<real>, b: seq<real>, c: seq<real>, i: nat, j: nat, k: nat, s: nat, p: nat)
    requires i < |a| && j < |b| && k < |c| && s == j * |c| + k && p == i * (|b| * |c|) + s
    ensures p < |TensorProduct(a, TensorProduct(b, c))|
    ensures TensorProduct(a, TensorProduct(b, c))[p] == a[i] * (b[j] * c[k])
  {
    var bc := TensorProduct(b, c);
    TensorProductEntry(b, c, j, k, s);
    EqualMul(i, |b| * |c|, |bc|);
    KnownRightEntry(a, bc, i, s, p, b[j] * c[k]);
  }

  /** Entry (i, j) of u (x) v, when entry i of u is known to be x. */
  lemma {:induction false} KnownLeftEntry(u: seq<real>, v: seq<real>, i: nat, j: nat, p: nat, x: real)
    requires i < |u| && j < |v| && p == i * |v| + j && u[i] == x
    ensures p < |TensorProduct(u, v)| && TensorProduct(u, v)[p] == x * v[j]
  {
    TensorProductEntry(u, v, i, j, p);
    TimesEqual(u[i], x, v[j]);
  }

  /** Entry (i, j) of u (x) v, when entry j of v is known to be x. */
  lemma {:induction false} KnownRightEntry(u: seq<real>, v: seq<real>, i: nat, j: nat, p: nat, x: real)
    requires i < |u| && j < |v| && p == i * |v| + j && v[j] == x
    ensures p < |TensorProduct(u, v)| && TensorProduct(u, v)[p] == u[i] * x
  {
    TensorProductEntry(u, v, i, j, p);
    EqualTimes(u[i], v[j], x);
  }

  lemma {:induction false} RealMulAssoc(x: real, y: real, z: real)
    ensures (x * y) * z == x * (y * z)
  {
  }

  /** Equal factors on the right give equal products. Stated as a lemma so
      that the solver substitutes inside a product without nonlinear
      search. */
  lemma {:induction false} EqualTimes(x: real, u: real, v: real)
    requires u == v
    ensures x * u == x * v
  {
  }

  /** Equal factors on the left give equal products. */
  lemma {:induction false} TimesEqual(u: real, v: real, x: real)
    requires u == v
    ensures u * x == v * x
  {
  }

  /** The tensor product distributes over a sum on the left. */
  lemma {:induction false} AddTimes(x: seq<real>, y: seq<real>, z: seq<real>)
    requires |x| == |y|
    ensures TensorProduct(Add(x, y), z) == Add(TensorProduct(x, z), TensorProduct(y, z))
  {
    var left, right := TensorProduct(Add(x, y), z), Add(TensorProduct(x, z), TensorProduct(y, z));
    forall p | 0 <= p < |left| ensures left[p] == right[p] {
      TensorProductFlat(Add(x, y), z, p);
      TensorProductFlat(x, z, p);
      TensorProductFlat(y, z, p);
    }
  }

  /** The tensor product distributes over a sum on the right. */
  lemma {:induction false} TimesAdd(x: seq<real>, y: seq<real>, z: seq<real>)
    requires |y| == |z|
    ensures TensorProduct(x, Add(y, z)) == Add(TensorProduct(x, y), TensorProduct(x, z))
  {
    var left, right := TensorProduct(x, Add(y, z)), Add(TensorProduct(x, y), TensorProduct(x, z));
    forall p | 0 <= p < |left| ensures left[p] == right[p] {
      TensorProductFlat(x, Add(y, z), p);
      TensorProductFlat(x, y, p);
      TensorProductFlat(x, z, p);
    }
  }
}
