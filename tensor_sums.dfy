/** Finite sums of tensors of one size, and the laws the Chen product needs
    from them: sums of equal terms are equal, sums add termwise, the tensor
    product distributes over a sum on either side, and a triangular double
    sum can be taken by rows or by columns. */
module TensorSums {
  import opened TensorAlgebra

  /** f(0) + ... + f(j - 1), each term of m entries, added from the left
      onto the zero tensor. */
  function SumOf(f: nat -> seq<real>, m: nat, j: nat): (r: seq<real>)
    requires forall i: nat :: i < j ==> |f(i)| == m
    ensures |r| == m
  {
    if j == 0 then Zeros(m) else Add(SumOf(f, m, j - 1), f(j - 1))
  }

  /** Sums of pointwise equal terms are equal. */
  lemma {:induction false} SumExt(f: nat -> seq<real>, g: nat -> seq<real>, m: nat, j: nat)
    requires forall i: nat :: i < j ==> |f(i)| == m && f(i) == g(i)
    ensures SumOf(f, m, j) == SumOf(g, m, j)
  {
    if j > 0 {
      SumExt(f, g, m, j - 1);
    }
  }

  /** Adding the zero tensor on the left changes nothing. */
  lemma {:induction false} ZerosAdd(x: seq<real>)
    ensures Add(Zeros(|x|), x) == x
  {
    var r := Add(Zeros(|x|), x);
    forall p | 0 <= p < |x| ensures r[p] == x[p] {
    }
  }

  /** Adding the zero tensor on the right changes nothing. */
  lemma {:induction false} AddZeros(x: seq<real>)
    ensures Add(x, Zeros(|x|)) == x
  {
    var r := Add(x, Zeros(|x|));
    forall p | 0 <= p < |x| ensures r[p] == x[p] {
    }
  }

  /** (a + b) + (c + e) == (a + c) + (b + e). */
  lemma {:induction false} AddSwap(a: seq<real>, b: seq<real>, c: seq<real>, e: seq<real>)
    requires |a| == |b| == |c| == |e|
    ensures Add(Add(a, b), Add(c, e)) == Add(Add(a, c), Add(b, e))
  {
    var l, r := Add(Add(a, b), Add(c, e)), Add(Add(a, c), Add(b, e));
    forall p | 0 <= p < |a| ensures l[p] == r[p] {
    }
  }

  /** A sum of termwise sums is the sum of the two sums. */
  lemma {:induction false} SumAdd(f: nat -> seq<real>, g: nat -> seq<real>, h: nat -> seq<real>, m: nat, j: nat)
    requires forall i: nat :: i < j ==> |f(i)| == m && |g(i)| == m && |h(i)| == m
    requires forall i: nat :: i < j ==> h(i) == Add(f(i), g(i))
    ensures SumOf(h, m, j) == Add(SumOf(f, m, j), SumOf(g, m, j))
  {
    if j == 0 {
      AddZeros(Zeros(m));
    } else {
      SumAdd(f, g, h, m, j - 1);
      AddSwap(SumOf(f, m, j - 1), SumOf(g, m, j - 1), f(j - 1), g(j - 1));
    }
  }

  /** The terms f(i) (x) u. */
  function TermsTimes(f: nat -> seq<real>, u: seq<real>): (g: nat -> seq<real>)
    ensures forall i: nat :: |g(i)| == |f(i)| * |u| && g(i) == TensorProduct(f(i), u)
  {
    (i: nat) => TensorProduct(f(i), u)
  }

  /** The terms u (x) f(i). */
  function TimesTerms(u: seq<real>, f: nat -> seq<real>): (g: nat -> seq<real>)
    ensures forall i: nat :: |g(i)| == |u| * |f(i)| && g(i) == TensorProduct(u, f(i))
  {
    (i: nat) => TensorProduct(u, f(i))
  }

  /** The tensor product distributes over a sum on the left; mu names the
      size m * |u| of the products. */
  lemma {:induction false} SumTimes(f: nat -> seq<real>, u: seq<real>, m: nat, mu: nat, j: nat)
    requires forall i: nat :: i < j ==> |f(i)| == m
    requires mu == m * |u|
    ensures forall i: nat :: i < j ==> |TermsTimes(f, u)(i)| == mu
    ensures TensorProduct(SumOf(f, m, j), u) == SumOf(TermsTimes(f, u), mu, j)
  {
    if j == 0 {
      ZeroTimes(m, u);
    } else {
      SumTimes(f, u, m, mu, j - 1);
      AddTimes(SumOf(f, m, j - 1), f(j - 1), u);
    }
  }

  /** The tensor product distributes over a sum on the right; mu names the
      size |u| * m of the products. */
  lemma {:induction false} TimesSum(u: seq<real>, f: nat -> seq<real>, m: nat, mu: nat, j: nat)
    requires forall i: nat :: i < j ==> |f(i)| == m
    requires mu == |u| * m
    ensures forall i: nat :: i < j ==> |TimesTerms(u, f)(i)| == mu
    ensures TensorProduct(u, SumOf(f, m, j)) == SumOf(TimesTerms(u, f), mu, j)
  {
    if j == 0 {
      TimesZeros(u, m);
    } else {
      TimesSum(u, f, m, mu, j - 1);
      TimesAdd(u, SumOf(f, m, j - 1), f(j - 1));
    }
  }

  /** The entries F(a, 0), F(a, 1), ... of row a of a two-index family. */
  function RowTerms(F: (nat, nat) -> seq<real>, a: nat): (f: nat -> seq<real>)
    ensures forall l: nat :: f(l) == F(a, l)
  {
    (l: nat) => F(a, l)
  }

  /** The entries F(l, l), F(l + 1, l), ... of column l of a two-index
      family, from the diagonal down. */
  function ColumnTerms(F: (nat, nat) -> seq<real>, l: nat): (f: nat -> seq<real>)
    ensures forall b: nat :: f(b) == F(l + b, l)
  {
    (b: nat) => F(l + b, l)
  }

  /** Row a of a triangular family: F(a, 0) + ... + F(a, a). */
  function Row(F: (nat, nat) -> seq<real>, m: nat, a: nat): (r: seq<real>)
    requires forall x: nat, y: nat :: |F(x, y)| == m
    ensures |r| == m
  {
    SumOf(RowTerms(F, a), m, a + 1)
  }

  /** Column l of the first K rows of a triangular family:
      F(l, l) + F(l + 1, l) + ... + F(K - 1, l), empty when l >= K. */
  function Column(F: (nat, nat) -> seq<real>, m: nat, K: nat, l: nat): (r: seq<real>)
    requires forall x: nat, y: nat :: |F(x, y)| == m
    ensures |r| == m
  {
    if l < K then SumOf(ColumnTerms(F, l), m, K - l) else Zeros(m)
  }

  /** A column that lies inside the triangle is the sum of its K - l
      entries. */
  lemma {:induction false} ColumnUnfold(F: (nat, nat) -> seq<real>, m: nat, K: nat, l: nat, j: nat)
    requires forall x: nat, y: nat :: |F(x, y)| == m
    requires l < K && j == K - l
    ensures Column(F, m, K, l) == SumOf(ColumnTerms(F, l), m, j)
  {
  }

  /** The row sums of a triangular family, indexed by the row. */
  function Rows(F: (nat, nat) -> seq<real>, m: nat): (f: nat -> seq<real>)
    requires forall x: nat, y: nat :: |F(x, y)| == m
    ensures forall a: nat :: |f(a)| == m && f(a) == Row(F, m, a)
  {
    (a: nat) => Row(F, m, a)
  }

  /** The column sums of the first K rows of a triangular family, indexed
      by the column. */
  function Columns(F: (nat, nat) -> seq<real>, m: nat, K: nat): (f: nat -> seq<real>)
    requires forall x: nat, y: nat :: |F(x, y)| == m
    ensures forall l: nat :: |f(l)| == m && f(l) == Column(F, m, K, l)
  {
    (l: nat) => Column(F, m, K, l)
  }

  /** Extending the triangle by row K adds F(K, l) to column l. */
  lemma {:induction false} ColumnStep(F: (nat, nat) -> seq<real>, m: nat, K: nat, l: nat)
    requires forall x: nat, y: nat :: |F(x, y)| == m
    requires l <= K
    ensures Column(F, m, K + 1, l) == Add(Column(F, m, K, l), F(K, l))
  {
    if l == K {
      ZerosAdd(F(K, l));
    }
  }

  /** Extending the triangle by row K - 1 adds that row's entry to every
      column, in the names cols, cols' and last of the three families. */
  lemma {:induction false} ColumnsStep(F: (nat, nat) -> seq<real>, m: nat, K: nat,
                    cols: nat -> seq<real>, cols': nat -> seq<real>, last: nat -> seq<real>)
    requires forall x: nat, y: nat :: |F(x, y)| == m
    requires K > 0 && cols == Columns(F, m, K - 1) && cols' == Columns(F, m, K) && last == RowTerms(F, K - 1)
    ensures forall l: nat :: l < K ==> |cols(l)| == m && |last(l)| == m && |cols'(l)| == m
    ensures forall l: nat :: l < K ==> cols'(l) == Add(cols(l), last(l))
  {
    forall l: nat | l < K ensures cols'(l) == Add(cols(l), last(l)) {
      ColumnStep(F, m, K - 1, l);
    }
  }

  /** The inductive step of TriangleSwap, in the names rows, cols, cols'
      and last of the four families: if the first K - 1 rows and the first
      K - 1 columns of the triangle have the same sum, so do the first K. */
  lemma {:induction false} TriangleStep(F: (nat, nat) -> seq<real>, m: nat, K: nat, rows: nat -> seq<real>,
                     cols: nat -> seq<real>, cols': nat -> seq<real>, last: nat -> seq<real>)
    requires forall x: nat, y: nat :: |F(x, y)| == m
    requires K > 0 && rows == Rows(F, m) && cols == Columns(F, m, K - 1)
    requires cols' == Columns(F, m, K) && last == RowTerms(F, K - 1)
    requires SumOf(rows, m, K - 1) == SumOf(cols, m, K - 1)
    ensures SumOf(rows, m, K) == SumOf(cols', m, K)
  {
    ColumnsStep(F, m, K, cols, cols', last);
    SumAdd(cols, last, cols', m, K);
    AddZeros(SumOf(cols, m, K - 1));
  }

  /** A triangular double sum taken row by row equals the same sum taken
      column by column: both are the sum over a < K and l <= a of F(a, l). */
  lemma {:induction false} TriangleSwap(F: (nat, nat) -> seq<real>, m: nat, K: nat)
    requires forall x: nat, y: nat :: |F(x, y)| == m
    ensures SumOf(Rows(F, m), m, K) == SumOf(Columns(F, m, K), m, K)
  {
    if K > 0 {
      TriangleSwap(F, m, K - 1);
      TriangleStep(F, m, K, Rows(F, m), Columns(F, m, K - 1), Columns(F, m, K), RowTerms(F, K - 1));
    }
  }
}
