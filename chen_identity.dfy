/** Chen's identity as an algebraic law: the Chen product of signatures is
    associative, so the fold over the increments may be cut anywhere, and the
    signature of two paths joined end to start is the Chen product of their
    signatures.

    The proof works with families of tensors indexed by a natural number
    (the terms of one level of a Chen product, their products with a third
    level) and sums of them. Several lemmas take such a family as a
    parameter g with a requires tying it to its definition, and a few state
    the lengths a sum needs by calling a lemma inside their ensures. This
    keeps each proof obligation to the one family it is about; writing the
    families out in place makes the solver unfold all of them at once. */
module ChenIdentity {
  import opened Numbers
  import opened TensorAlgebra
  import opened TensorSums
  import opened Paths
  import opened PathSignature

  /** Term l of level k of the Chen product of S and T, S[l] (x) T[k - l];
      the zero tensor of level k past the last term. */
  function ChenTerm(S: seq<seq<real>>, T: seq<seq<real>>, d: nat, n: nat, k: nat, l: nat): (t: seq<real>)
    requires Graded(S, d, n) && Graded(T, d, n) && k <= n
    ensures |t| == Pow(d, k)
  {
    if l <= k then
      PowAdd(d, l, k - l);
      TensorProduct(S[l], T[k - l])
    else Zeros(Pow(d, k))
  }

  /** A term of level k with l <= k is S[l] (x) T[k - l]. */
  lemma ChenTermUnfold(S: seq<seq<real>>, T: seq<seq<real>>, d: nat, n: nat, k: nat, l: nat)
    requires Graded(S, d, n) && Graded(T, d, n) && l <= k <= n
    ensures ChenTerm(S, T, d, n, k, l) == TensorProduct(S[l], T[k - l])
  {
  }

  /** The terms of level k of the Chen product, indexed by l. */
  function ChenTerms(S: seq<seq<real>>, T: seq<seq<real>>, d: nat, n: nat, k: nat): (f: nat -> seq<real>)
    requires Graded(S, d, n) && Graded(T, d, n) && k <= n
    ensures forall l: nat :: |f(l)| == Pow(d, k) && f(l) == ChenTerm(S, T, d, n, k, l)
  {
    (l: nat) => ChenTerm(S, T, d, n, k, l)
  }

  /** The running sum of the Chen product is the sum of its first m terms. */
  lemma {:induction false} ChenSumIsSum(S: seq<seq<real>>, T: seq<seq<real>>, d: nat, n: nat, k: nat, m: nat)
    requires Graded(S, d, n) && Graded(T, d, n) && k <= n && m <= k + 1
    ensures ChenSum(S, T, d, n, k, m) == SumOf(ChenTerms(S, T, d, n, k), Pow(d, k), m)
  {
    if m > 0 {
      ChenSumIsSum(S, T, d, n, k, m - 1);
      ChenSumStep(S, T, d, n, k, m - 1);
    }
  }

  /** Every level of the Chen product of signatures with unit level 0, level
      0 included, is the sum of its k + 1 terms. */
  lemma ChenLevelIsSum(S: seq<seq<real>>, T: seq<seq<real>>, d: nat, n: nat, k: nat)
    requires Graded(S, d, n) && Graded(T, d, n) && S[0] == [1.0] && T[0] == [1.0] && k <= n
    ensures Chen(S, T, d, n)[k] == SumOf(ChenTerms(S, T, d, n, k), Pow(d, k), k + 1)
  {
    if k == 0 {
      ChenLevelZeroIsSum(S, T, d, n);
    } else {
      ChenLevelUnfold(S, T, d, n, k);
      ChenSumIsSum(S, T, d, n, k, k + 1);
    }
  }

  /** Level 0 of the Chen product, the unit scalar, is its one term
      S[0] (x) T[0] = [1.0] (x) [1.0]. */
  lemma ChenLevelZeroIsSum(S: seq<seq<real>>, T: seq<seq<real>>, d: nat, n: nat)
    requires Graded(S, d, n) && Graded(T, d, n) && S[0] == [1.0] && T[0] == [1.0]
    ensures Chen(S, T, d, n)[0] == SumOf(ChenTerms(S, T, d, n, 0), Pow(d, 0), 1)
  {
    ScalarTimes(1.0, [1.0]);
    ZerosAdd([1.0]);
  }

  /** Above level 0, a level of the Chen product is its running sum over
      all k + 1 terms. */
  lemma ChenLevelUnfold(S: seq<seq<real>>, T: seq<seq<real>>, d: nat, n: nat, k: nat)
    requires Graded(S, d, n) && Graded(T, d, n) && 0 < k <= n
    ensures Chen(S, T, d, n)[k] == ChenSum(S, T, d, n, k, k + 1)
  {
  }

  /** Term (a, l) of level k of a threefold Chen product,
      (S[l] (x) T[a - l]) (x) U[k - a] for l <= a <= k, zero elsewhere. */
  function Triple(S: seq<seq<real>>, T: seq<seq<real>>, U: seq<seq<real>>, d: nat, n: nat, k: nat, a: nat, l: nat): (t: seq<real>)
    requires Graded(S, d, n) && Graded(T, d, n) && Graded(U, d, n) && k <= n
    ensures |t| == Pow(d, k)
  {
    if l <= a <= k then
      PowAdd(d, l, a - l);
      PowAdd(d, a, k - a);
      TensorProduct(TensorProduct(S[l], T[a - l]), U[k - a])
    else Zeros(Pow(d, k))
  }

  /** The terms of level k of a threefold Chen product, as a triangular
      family. */
  function Triples(S: seq<seq<real>>, T: seq<seq<real>>, U: seq<seq<real>>, d: nat, n: nat, k: nat): (F: (nat, nat) -> seq<real>)
    requires Graded(S, d, n) && Graded(T, d, n) && Graded(U, d, n) && k <= n
    ensures forall a: nat, l: nat :: |F(a, l)| == Pow(d, k) && F(a, l) == Triple(S, T, U, d, n, k, a, l)
  {
    (a: nat, l: nat) => Triple(S, T, U, d, n, k, a, l)
  }

  /** Term l of (S * T)[a], multiplied on the right by U[k - a], is entry
      (a, l) of the threefold family. */
  lemma RowEntry(S: seq<seq<real>>, T: seq<seq<real>>, U: seq<seq<real>>, d: nat, n: nat, k: nat, a: nat, l: nat)
    requires Graded(S, d, n) && Graded(T, d, n) && Graded(U, d, n) && l <= a <= k <= n
    ensures TermsTimes(ChenTerms(S, T, d, n, a), U[k - a])(l) == RowTerms(Triples(S, T, U, d, n, k), a)(l)
  {
  }

  /** Level a of S * T, multiplied on the right by U[k - a], is the sum
      of its terms each multiplied by U[k - a]. */
  lemma LeftSpread(S: seq<seq<real>>, T: seq<seq<real>>, U: seq<seq<real>>, d: nat, n: nat, k: nat, a: nat)
    requires Graded(S, d, n) && Graded(T, d, n) && Graded(U, d, n)
    requires S[0] == [1.0] && T[0] == [1.0] && a <= k <= n
    ensures (PowSplit(d, a, k - a, k);
      TensorProduct(Chen(S, T, d, n)[a], U[k - a]) == SumOf(TermsTimes(ChenTerms(S, T, d, n, a), U[k - a]), Pow(d, k), a + 1))
  {
    ChenLevelIsSum(S, T, d, n, a);
    PowSplit(d, a, k - a, k);
    SumTimes(ChenTerms(S, T, d, n, a), U[k - a], Pow(d, a), Pow(d, k), a + 1);
  }

  /** The terms (S * T)[a][l] (x) U[k - a] all have d^k entries. */
  lemma TermsTimesLength(S: seq<seq<real>>, T: seq<seq<real>>, U: seq<seq<real>>, d: nat, n: nat, k: nat, a: nat,
                         g: nat -> seq<real>, m: nat)
    requires Graded(S, d, n) && Graded(T, d, n) && Graded(U, d, n) && a <= k <= n
    requires g == TermsTimes(ChenTerms(S, T, d, n, a), U[k - a]) && m == Pow(d, k)
    ensures forall i: nat :: |g(i)| == m
  {
    PowSplit(d, a, k - a, k);
  }

  /** Row a of the threefold family, entry by entry, is the terms of level
      a of S * T times U[k - a]; g and h name the two families. */
  lemma LeftRegroup(S: seq<seq<real>>, T: seq<seq<real>>, U: seq<seq<real>>, d: nat, n: nat, k: nat, a: nat,
                    g: nat -> seq<real>, h: nat -> seq<real>, m: nat, j: nat)
    requires Graded(S, d, n) && Graded(T, d, n) && Graded(U, d, n) && a <= k <= n
    requires g == TermsTimes(ChenTerms(S, T, d, n, a), U[k - a]) && h == RowTerms(Triples(S, T, U, d, n, k), a)
    requires m == Pow(d, k) && j == a + 1
    ensures (TermsTimesLength(S, T, U, d, n, k, a, g, m); SumOf(g, m, j) == SumOf(h, m, j))
  {
    TermsTimesLength(S, T, U, d, n, k, a, g, m);
    forall i: nat | i < j ensures g(i) == h(i) {
      RowEntry(S, T, U, d, n, k, a, i);
    }
    SumExt(g, h, m, j);
  }

  /** Term a of level k of (S * T) * U is row a of the threefold family:
      (S * T)[a] (x) U[k - a] spreads over the a + 1 terms of (S * T)[a].
      g and h name the families of LeftRegroup. */
  lemma LeftTerm(S: seq<seq<real>>, T: seq<seq<real>>, U: seq<seq<real>>, d: nat, n: nat, k: nat, a: nat,
                 g: nat -> seq<real>, h: nat -> seq<real>, m: nat, j: nat)
    requires Graded(S, d, n) && Graded(T, d, n) && Graded(U, d, n)
    requires S[0] == [1.0] && T[0] == [1.0] && a <= k <= n
    requires g == TermsTimes(ChenTerms(S, T, d, n, a), U[k - a]) && h == RowTerms(Triples(S, T, U, d, n, k), a)
    requires m == Pow(d, k) && j == a + 1
    ensures ChenTerm(Chen(S, T, d, n), U, d, n, k, a) == Row(Triples(S, T, U, d, n, k), m, a)
  {
    LeftSpread(S, T, U, d, n, k, a);
    LeftRegroup(S, T, U, d, n, k, a, g, h, m, j);
    ChenTermUnfold(Chen(S, T, d, n), U, d, n, k, a);
  }

  /** Term b of (T * U)[k - l], multiplied on the left by S[l], is entry
      (l + b, l) of the threefold family once the product is regrouped. */
  lemma ColumnEntry(S: seq<seq<real>>, T: seq<seq<real>>, U: seq<seq<real>>, d: nat, n: nat, k: nat, l: nat, b: nat)
    requires Graded(S, d, n) && Graded(T, d, n) && Graded(U, d, n) && l <= k <= n && b <= k - l
    ensures TimesTerms(S[l], ChenTerms(T, U, d, n, k - l))(b) == ColumnTerms(Triples(S, T, U, d, n, k), l)(b)
  {
    var x, y := ChenTerm(T, U, d, n, k - l, b), Triple(S, T, U, d, n, k, l + b, l);
    Regroup(S[l], T[b], U[k - l - b], x, y);
    assert TimesTerms(S[l], ChenTerms(T, U, d, n, k - l))(b) == TensorProduct(S[l], x);
    TriplesColumn(S, T, U, d, n, k, l, b);
  }

  /** Entry b of column l of the threefold family is its term (l + b, l). */
  lemma TriplesColumn(S: seq<seq<real>>, T: seq<seq<real>>, U: seq<seq<real>>, d: nat, n: nat, k: nat, l: nat, b: nat)
    requires Graded(S, d, n) && Graded(T, d, n) && Graded(U, d, n) && k <= n
    ensures ColumnTerms(Triples(S, T, U, d, n, k), l)(b) == Triple(S, T, U, d, n, k, l + b, l)
  {
    var F := Triples(S, T, U, d, n, k);
    assert ColumnTerms(F, l)(b) == F(l + b, l);
  }

  /** Associativity of the tensor product, applied to named products. */
  lemma Regroup(s: seq<real>, t: seq<real>, u: seq<real>, x: seq<real>, y: seq<real>)
    requires x == TensorProduct(t, u) && y == TensorProduct(TensorProduct(s, t), u)
    ensures TensorProduct(s, x) == y
  {
    TensorProductAssoc(s, t, u);
  }

  /** S[l], multiplied on the left of level k - l of T * U, is the sum of
      S[l] times each of its terms. */
  lemma RightSpread(S: seq<seq<real>>, T: seq<seq<real>>, U: seq<seq<real>>, d: nat, n: nat, k: nat, l: nat)
    requires Graded(S, d, n) && Graded(T, d, n) && Graded(U, d, n)
    requires T[0] == [1.0] && U[0] == [1.0] && l <= k <= n
    ensures (PowSplit(d, l, k - l, k);
      TensorProduct(S[l], Chen(T, U, d, n)[k - l]) == SumOf(TimesTerms(S[l], ChenTerms(T, U, d, n, k - l)), Pow(d, k), k - l + 1))
  {
    ChenLevelIsSum(T, U, d, n, k - l);
    PowSplit(d, l, k - l, k);
    TimesSum(S[l], ChenTerms(T, U, d, n, k - l), Pow(d, k - l), Pow(d, k), k - l + 1);
  }

  /** The terms S[l] (x) (T * U)[k - l] all have d^k entries. */
  lemma TimesTermsLength(S: seq<seq<real>>, T: seq<seq<real>>, U: seq<seq<real>>, d: nat, n: nat, k: nat, l: nat,
                         g: nat -> seq<real>, m: nat)
    requires Graded(S, d, n) && Graded(T, d, n) && Graded(U, d, n) && l <= k <= n
    requires g == TimesTerms(S[l], ChenTerms(T, U, d, n, k - l)) && m == Pow(d, k)
    ensures forall i: nat :: |g(i)| == m
  {
    PowSplit(d, l, k - l, k);
  }

  /** Column l of the threefold family, entry by entry, is S[l] times the
      terms of level k - l of T * U; g and h name the two families. */
  lemma RightRegroup(S: seq<seq<real>>, T: seq<seq<real>>, U: seq<seq<real>>, d: nat, n: nat, k: nat, l: nat,
                     g: nat -> seq<real>, h: nat -> seq<real>, m: nat, j: nat)
    requires Graded(S, d, n) && Graded(T, d, n) && Graded(U, d, n) && l <= k <= n
    requires g == TimesTerms(S[l], ChenTerms(T, U, d, n, k - l)) && h == ColumnTerms(Triples(S, T, U, d, n, k), l)
    requires m == Pow(d, k) && j == k - l + 1
    ensures (TimesTermsLength(S, T, U, d, n, k, l, g, m); SumOf(g, m, j) == SumOf(h, m, j))
  {
    forall i: nat | i < j ensures g(i) == h(i) {
      ColumnEntry(S, T, U, d, n, k, l, i);
    }
    SumExt(g, h, m, j);
  }

  /** Term l of level k of S * (T * U) is column l of the threefold family:
      S[l] (x) (T * U)[k - l] spreads over the k - l + 1 terms of
      (T * U)[k - l], each regrouped by associativity of the product.
      g and h name the families of RightRegroup. */
  lemma RightTerm(S: seq<seq<real>>, T: seq<seq<real>>, U: seq<seq<real>>, d: nat, n: nat, k: nat, l: nat,
                  g: nat -> seq<real>, h: nat -> seq<real>, m: nat, j: nat)
    requires Graded(S, d, n) && Graded(T, d, n) && Graded(U, d, n)
    requires T[0] == [1.0] && U[0] == [1.0] && l <= k <= n
    requires g == TimesTerms(S[l], ChenTerms(T, U, d, n, k - l)) && h == ColumnTerms(Triples(S, T, U, d, n, k), l)
    requires m == Pow(d, k) && j == k - l + 1
    ensures ChenTerm(S, Chen(T, U, d, n), d, n, k, l) == Column(Triples(S, T, U, d, n, k), m, k + 1, l)
  {
    RightSpread(S, T, U, d, n, k, l);
    RightRegroup(S, T, U, d, n, k, l, g, h, m, j);
    ChenTermUnfold(S, Chen(T, U, d, n), d, n, k, l);
    ColumnUnfold(Triples(S, T, U, d, n, k), m, k + 1, l, j);
  }

  /** LeftTerm for term a of level k of (S * T) * U, in the names of
      LeftLevel. */
  lemma LeftLevelTerm(S: seq<seq<real>>, T: seq<seq<real>>, U: seq<seq<real>>, d: nat, n: nat, k: nat,
                      F: (nat, nat) -> seq<real>, f: nat -> seq<real>, g: nat -> seq<real>, m: nat, a: nat)
    requires Graded(S, d, n) && Graded(T, d, n) && Graded(U, d, n)
    requires S[0] == [1.0] && T[0] == [1.0] && a <= k <= n
    requires F == Triples(S, T, U, d, n, k) && m == Pow(d, k)
    requires f == ChenTerms(Chen(S, T, d, n), U, d, n, k) && g == Rows(F, m)
    ensures f(a) == g(a)
  {
    LeftTerm(S, T, U, d, n, k, a, TermsTimes(ChenTerms(S, T, d, n, a), U[k - a]), RowTerms(F, a), m, a + 1);
  }

  /** RightTerm for term l of level k of S * (T * U), in the names of
      RightLevel. */
  lemma RightLevelTerm(S: seq<seq<real>>, T: seq<seq<real>>, U: seq<seq<real>>, d: nat, n: nat, k: nat,
                       F: (nat, nat) -> seq<real>, f: nat -> seq<real>, g: nat -> seq<real>, m: nat, l: nat)
    requires Graded(S, d, n) && Graded(T, d, n) && Graded(U, d, n)
    requires T[0] == [1.0] && U[0] == [1.0] && l <= k <= n
    requires F == Triples(S, T, U, d, n, k) && m == Pow(d, k)
    requires f == ChenTerms(S, Chen(T, U, d, n), d, n, k) && g == Columns(F, m, k + 1)
    ensures f(l) == g(l)
  {
    RightTerm(S, T, U, d, n, k, l, TimesTerms(S[l], ChenTerms(T, U, d, n, k - l)), ColumnTerms(F, l), m, k - l + 1);
  }

  /** Level k of (S * T) * U is the threefold family F summed row by row;
      f names the terms of that level and g the row sums. */
  lemma LeftLevel(S: seq<seq<real>>, T: seq<seq<real>>, U: seq<seq<real>>, d: nat, n: nat, k: nat,
                  F: (nat, nat) -> seq<real>, f: nat -> seq<real>, g: nat -> seq<real>, m: nat)
    requires Graded(S, d, n) && Graded(T, d, n) && Graded(U, d, n)
    requires S[0] == [1.0] && T[0] == [1.0] && U[0] == [1.0] && k <= n
    requires F == Triples(S, T, U, d, n, k) && m == Pow(d, k)
    requires f == ChenTerms(Chen(S, T, d, n), U, d, n, k) && g == Rows(F, m)
    ensures Chen(Chen(S, T, d, n), U, d, n)[k] == SumOf(g, m, k + 1)
  {
    ChenLevelIsSum(Chen(S, T, d, n), U, d, n, k);
    forall a: nat | a < k + 1 ensures f(a) == g(a) {
      LeftLevelTerm(S, T, U, d, n, k, F, f, g, m, a);
    }
    SumExt(f, g, m, k + 1);
  }

  /** Level k of S * (T * U) is the threefold family F summed column by
      column; f names the terms of that level and g the column sums. */
  lemma RightLevel(S: seq<seq<real>>, T: seq<seq<real>>, U: seq<seq<real>>, d: nat, n: nat, k: nat,
                   F: (nat, nat) -> seq<real>, f: nat -> seq<real>, g: nat -> seq<real>, m: nat)
    requires Graded(S, d, n) && Graded(T, d, n) && Graded(U, d, n)
    requires S[0] == [1.0] && T[0] == [1.0] && U[0] == [1.0] && k <= n
    requires F == Triples(S, T, U, d, n, k) && m == Pow(d, k)
    requires f == ChenTerms(S, Chen(T, U, d, n), d, n, k) && g == Columns(F, m, k + 1)
    ensures Chen(S, Chen(T, U, d, n), d, n)[k] == SumOf(g, m, k + 1)
  {
    ChenLevelIsSum(S, Chen(T, U, d, n), d, n, k);
    forall l: nat | l < k + 1 ensures f(l) == g(l) {
      RightLevelTerm(S, T, U, d, n, k, F, f, g, m, l);
    }
    SumExt(f, g, m, k + 1);
  }

  /** Level k of (S * T) * U and of S * (T * U) agree: both sum the
      threefold family F, by rows and by columns. */
  lemma ChenAssocLevel(S: seq<seq<real>>, T: seq<seq<real>>, U: seq<seq<real>>, d: nat, n: nat, k: nat,
                       F: (nat, nat) -> seq<real>, m: nat)
    requires Graded(S, d, n) && Graded(T, d, n) && Graded(U, d, n)
    requires S[0] == [1.0] && T[0] == [1.0] && U[0] == [1.0] && k <= n
    requires F == Triples(S, T, U, d, n, k) && m == Pow(d, k)
    ensures Chen(Chen(S, T, d, n), U, d, n)[k] == Chen(S, Chen(T, U, d, n), d, n)[k]
  {
    LeftLevel(S, T, U, d, n, k, F, ChenTerms(Chen(S, T, d, n), U, d, n, k), Rows(F, m), m);
    RightLevel(S, T, U, d, n, k, F, ChenTerms(S, Chen(T, U, d, n), d, n, k), Columns(F, m, k + 1), m);
    TriangleSwap(F, m, k + 1);
  }

  /** The Chen product of signatures with unit level 0 is associative. */
  lemma ChenAssoc(S: seq<seq<real>>, T: seq<seq<real>>, U: seq<seq<real>>, d: nat, n: nat)
    requires Graded(S, d, n) && Graded(T, d, n) && Graded(U, d, n)
    requires S[0] == [1.0] && T[0] == [1.0] && U[0] == [1.0]
    ensures Chen(Chen(S, T, d, n), U, d, n) == Chen(S, Chen(T, U, d, n), d, n)
  {
    forall k | 0 <= k <= n
      ensures Chen(Chen(S, T, d, n), U, d, n)[k] == Chen(S, Chen(T, U, d, n), d, n)[k]
    {
      ChenAssocLevel(S, T, U, d, n, k, Triples(S, T, U, d, n, k), Pow(d, k));
    }
  }

  /** One step of SignatureConcat on named signatures: if SAB' is the Chen
      product of SA and SB', then appending the segment SV on the right of
      both SAB' and SB' keeps SAB the Chen product of SA and SB. */
  lemma ConcatStep(SAB: seq<seq<real>>, SAB': seq<seq<real>>, SA: seq<seq<real>>, SB: seq<seq<real>>,
                   SB': seq<seq<real>>, SV: seq<seq<real>>, d: nat, n: nat)
    requires Graded(SA, d, n) && Graded(SB', d, n) && Graded(SV, d, n) && Graded(SAB', d, n)
    requires SA[0] == [1.0] && SB'[0] == [1.0] && SV[0] == [1.0]
    requires SAB' == Chen(SA, SB', d, n) && SAB == Chen(SAB', SV, d, n) && SB == Chen(SB', SV, d, n)
    ensures SAB == Chen(SA, SB, d, n)
  {
    ChenAssoc(SA, SB', SV, d, n);
  }

  /** Signature of the increments A followed by the increments B is the
      Chen product of their signatures: the fold over A + B may be cut
      where A ends. */
  lemma {:induction false} SignatureConcat(A: seq<seq<real>>, B: seq<seq<real>>, d: nat, n: nat)
    requires |A| > 0 && forall i :: 0 <= i < |A| ==> |A[i]| == d
    requires |B| > 0 && forall i :: 0 <= i < |B| ==> |B[i]| == d
    ensures Signature(A + B, d, n) == Chen(Signature(A, d, n), Signature(B, d, n), d, n)
    decreases |B|
  {
    var AB, v := A + B, B[|B| - 1];
    SegmentLevelZero(v, n);
    if |B| == 1 {
      SignatureUnfold(AB, d, n, A, v);
    } else {
      var B' := B[..|B| - 1];
      SignatureUnfold(AB, d, n, A + B', v);
      SignatureUnfold(B, d, n, B', v);
      SignatureConcat(A, B', d, n);
      ConcatStep(Signature(AB, d, n), Signature(A + B', d, n), Signature(A, d, n), Signature(B, d, n),
        Signature(B', d, n), Segment(v, n), d, n);
    }
  }

  /** Chen's identity for paths: cutting a path at an inner point j, the
      signature of the whole path is the Chen product of the signatures of
      the part up to j and the part from j on. */
  lemma PathSigSplit(X: seq<seq<real>>, n: nat, j: nat)
    requires |X| > 0 && |X[0]| > 0 && Rectangular(X) && 0 < j < |X| - 1
    ensures (IncrementsSplit(X, j);
      PathSig(X, n) == Chen(PathSig(X[..j + 1], n), PathSig(X[j..], n), |X[0]|, n))
  {
    IncrementsSplit(X, j);
    SignatureConcat(Increments(X[..j + 1]), Increments(X[j..]), |X[0]|, n);
  }
}
