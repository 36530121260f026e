/** Natural-number helpers shared by the index codec, the tensor layout and
    the signature.

    Some facts appear in more than one shape on purpose. The solver handles
    products of unknowns poorly, so each shape hands a caller exactly the
    terms it already has: PowSplit is PowAdd with the exponent of the
    product named; Split returns the quotient and remainder as plain values,
    while DivBound only bounds m / n and m % n where a function body needs
    them; EqualMul substitutes inside an integer product as EqualTimes and
    TimesEqual do inside a real one. */
module Numbers {

  /** b raised to the power k. */
  function Pow(b: nat, k: nat): nat
  {
    if k == 0 then 1 else b * Pow(b, k - 1)
  }

  /** k factorial, as the math library's factorial computes it. */
  function Fact(k: nat): (r: nat)
    ensures r >= 1
  {
    if k == 0 then 1 else k * Fact(k - 1)
  }

  /** Exponents add under multiplication of powers of the same base. */
  lemma {:induction false} PowAdd(b: nat, i: nat, j: nat)
    ensures Pow(b, i) * Pow(b, j) == Pow(b, i + j)
  {
    if i > 0 {
      PowAdd(b, i - 1, j);
      var x, y := Pow(b, i - 1), Pow(b, j);
      assert Pow(b, i) == b * x;
      assert Pow(b, i + j) == b * Pow(b, i - 1 + j);
      MulAssoc(b, x, y);
    }
  }

  /** PowAdd with the exponent of the product named: b^i * b^j == b^k when
      i + j == k. */
  lemma {:induction false} PowSplit(b: nat, i: nat, j: nat, k: nat)
    requires i + j == k
    ensures Pow(b, i) * Pow(b, j) == Pow(b, k)
  {
    PowAdd(b, i, j);
  }

  /** Equal right factors give equal products. */
  lemma {:induction false} EqualMul(c: int, a: int, b: int)
    requires a == b
    ensures c * a == c * b
  {
  }

  lemma {:induction false} MulAssoc(a: int, b: int, c: int)
    ensures (a * b) * c == a * (b * c)
  {
  }

  /** Regrouping used by the row-major layout of a concatenated index. */
  lemma {:induction false} RowMajorRegroup(a: int, p: int, b: int, n: int, x: int)
    ensures (a * p + b) * n + x == a * (p * n) + (b * n + x)
  {
    assert (a * p + b) * n == (a * p) * n + b * n;
    MulAssoc(a, p, n);
  }

  /** Quotient and remainder of m < p * n by n, returned as plain values. */
  lemma {:induction false} Split(m: nat, p: nat, n: nat) returns (q: nat, r: nat)
    requires m < p * n
    ensures n > 0 && q < p && r < n && m == q * n + r
  {
    DivBound(m, p, n);
    q, r := m / n, m % n;
  }

  lemma {:induction false} MulMono(a: int, b: int, n: int)
    requires a <= b && n >= 0
    ensures a * n <= b * n
  {
    assert b * n - a * n == (b - a) * n;
  }

  /** Division and remainder undo the row-major step f * n + i. */
  lemma {:induction false} FlatDivMod(f: nat, n: nat, i: nat)
    requires i < n
    ensures (f * n + i) / n == f && (f * n + i) % n == i
  {
    var m := f * n + i;
    var q, r := m / n, m % n;
    assert q * n + r == m;
    if q > f {
      MulMono(f + 1, q, n);
    } else if q < f {
      MulMono(q + 1, f, n);
    }
  }

  /** The row-major step stays below p * n when f < p and i < n. */
  lemma {:induction false} RowMajorBound(f: nat, p: nat, i: nat, n: nat)
    requires f < p && i < n
    ensures f * n + i < p * n
  {
    MulMono(f + 1, p, n);
  }

  /** Splitting m < p * n by n leaves a quotient below p. */
  lemma {:induction false} DivBound(m: nat, p: nat, n: nat)
    requires m < p * n
    ensures n > 0 && m / n < p && m % n < n
  {
    if n > 0 && m / n >= p {
      MulMono(p, m / n, n);
    }
  }
}
