# Path signatures of piecewise-linear paths

A model of the signature library of the signature visualizer
(`src/signature.js`). The library computes the truncated signature of a path
drawn as a list of points in R^d. Level k of the signature is a tensor with
d^k entries. The library builds it from three parts:

- a tensor product and tensor power on nested arrays;
- a row-major codec between multi-indices and flat indices, which the
  display layer uses to label the cells of a level;
- Chen's identity, which folds the signatures of the straight segments
  together one increment at a time.

The library also measures the length of a path.

A tensor of level k over R^d is a flat `seq<real>` of d^k entries, stored
row-major with the last axis fastest. A scalar is a one-entry sequence. The
arithmetic is exact, over `real` and `nat`.

Modules:

- `Outcome` (`result.dfy`): the errors the library raises, and a `Result`
  type that carries them.
- `Numbers` (`numbers.dfy`): powers, factorials, and the division facts
  behind the row-major layout.
- `IndexCodec` (`index_codec.dfy`): `intToIndex`, `indexToInt` and
  `reindex`, with their round trips.
- `TensorAlgebra` (`tensor_algebra.dfy`): `tensorProduct` and `tensorPow`,
  with the entry-level facts about them, associativity and
  distributivity over entrywise addition.
- `TensorSums` (`tensor_sums.dfy`): finite sums of tensors of one size. The
  tensor product distributes over them on either side, and a triangular
  double sum can be taken by rows or by columns.
- `Paths` (`paths.dfy`): points, increments, and the `pathLength` loop.
- `PathSignature` (`signature.dfy`): the specification of the signature as
  functions (segment signature, Chen product, fold over increments). It also
  holds the imperative `sig` procedure over two 2-D arrays, proved equal to
  that specification.
- `ChenIdentity` (`chen_identity.dfy`): the Chen product is associative,
  so the fold over the increments can be cut anywhere. The signature of a
  concatenation is the Chen product of the signatures of the parts.
- `Display` (`display.dfy`): the display grid a level is reshaped into. Its
  size makes the `reindex` call that labels each cell legal.

## Model

| member | source | states |
|---|---|---|
| IndexCodec.IndexToInt | src/signature.js:75-86 | succeeds exactly when index and shape have the same, non-zero, length. On a length mismatch it fails with DimensionMismatch. On an empty index it fails with CallStackExceeded, because the original recurses forever there. |
| IndexCodec.IntToIndex | src/signature.js:56-66 | succeeds exactly when the shape is non-empty and m < prod(shape). An empty shape fails with EmptyShape, because the product of an empty list is refused. Otherwise it fails with IndexOutOfRange. A result has one component per axis. |
| IndexCodec.IntToIndexInRange | src/signature.js:56-66 | every component of a decoded flat index lies below the size of its axis |
| IndexCodec.IntToIndexOneAxis | src/signature.js:61-63 | on a one-axis shape, m below the axis size decodes to [m] |
| IndexCodec.Reindex | src/signature.js:96-106 | the error cases, checked in the original's order: DimensionMismatch, EmptyShape, IncompatibleShape (unequal products), IndexOutOfRange. It succeeds exactly when none applies, and the result is an in-range index under the second shape. |
| IndexCodec.IndexToIntBound | src/signature.js:75-86 | an in-range multi-index has a flat index below prod(shape) |
| IndexCodec.IntToIndexThenIndexToInt | src/signature.js:56-86 | for m < prod(shape), indexToInt(intToIndex(m, shape), shape) == m |
| IndexCodec.IndexToIntThenIntToIndex | src/signature.js:56-86 | for an in-range index, intToIndex(indexToInt(index, shape), shape) == index |
| IndexCodec.ReindexRoundTrip | src/signature.js:96-106 | between shapes of equal product, reindexing an in-range index there and back gives the index again |
| IndexCodec.RowMajorStep | src/signature.js:83-85 | row-major layout: indexToInt(index ++ [i], shape ++ [n]) == indexToInt(index, shape) * n + i |
| IndexCodec.IntToIndexStep | src/signature.js:64-65 | decoding q * n + r under shape ++ [n], with r < n and q < prod(shape), gives the decoding of q followed by r |
| IndexCodec.IndexToIntConcat | src/signature.js:75-86 | the flat index of a concatenated multi-index is the flat index of the first part times prod of the second shape, plus the flat index of the second part |
| IndexCodec.ProdConcat | src/signature.js:57 | the product of a concatenated shape is the product of the products |
| IndexCodec.ProdRepeat | src/signature.js:57 | the shape [d, ..., d] of a level-k tensor has product d^k |
| TensorAlgebra.TensorProduct | src/signature.js:25-32 | a (x) b has \|a\| * \|b\| entries, laid out as the blocks b * a[0], b * a[1], ... (the entries themselves are stated by TensorProductEntry and TensorProductFlat) |
| TensorAlgebra.TensorProductEntry | src/signature.js:29-31 | entry i * \|b\| + j of a (x) b exists and is a[i] * b[j] |
| TensorAlgebra.TensorProductAt | src/signature.js:25-32 | the shape of a (x) b is the shape of a followed by the shape of b. The entry at the concatenated multi-index is the product of the two entries. |
| TensorAlgebra.TensorProductFlat | src/signature.js:29-31 | flat position p of a (x) b is a[p / \|b\|] * b[p % \|b\|] |
| TensorAlgebra.TensorProductAssoc | src/signature.js:25-32 | the tensor product is associative: (a (x) b) (x) c == a (x) (b (x) c) |
| TensorAlgebra.AddTimes | src/signature.js:25-32 | the tensor product distributes over entrywise addition on the left: (x + y) (x) z == x (x) z + y (x) z |
| TensorAlgebra.TimesAdd | src/signature.js:25-32 | the tensor product distributes over entrywise addition on the right: x (x) (y + z) == x (x) y + x (x) z |
| TensorAlgebra.ScalarTimes | src/signature.js:26-28 | a scalar left operand scales every entry of the right operand |
| TensorAlgebra.TimesUnit | src/signature.js:29-31 | the unit scalar on the right leaves a tensor unchanged |
| TensorAlgebra.TimesZeros | src/signature.js:29-31 | a zero tensor on the right gives a zero tensor |
| TensorAlgebra.ZeroTimes | src/signature.js:29-31 | a zero tensor on the left gives a zero tensor |
| TensorAlgebra.TensorPow | src/signature.js:41-46 | the k-fold power of a d-vector has d^k entries |
| TensorAlgebra.TensorPowOne | src/signature.js:41-46 | the first power of a vector is the vector |
| TensorAlgebra.TensorPowAt | src/signature.js:41-46 | the entry of the k-fold power at multi-index (i1, ..., ik) of shape [d, ..., d] is a[i1] * ... * a[ik] |
| TensorAlgebra.BlockMonomial | src/signature.js:29-31 | block i0 of a (x) b is b scaled by a[i0]. An entry of b that is the product over the tail of an index becomes the product over the whole index. |
| TensorAlgebra.LeadingAxis | src/signature.js:75-86 | under [d, ..., d], the leading component of a multi-index counts in blocks of d^(k-1) |
| TensorAlgebra.TensorPowOfZero | src/signature.js:41-46 | every power of level at least 1 of the zero vector is the zero tensor |
| TensorSums.SumTimes | src/signature.js:25-32 | a finite sum of tensors, multiplied on the right by u, is the sum of the products of its terms with u |
| TensorSums.TimesSum | src/signature.js:25-32 | u multiplied on the right by a finite sum of tensors is the sum of the products of u with its terms |
| Numbers.PowAdd | src/signature.js:45 | d^i * d^j == d^(i+j), the size of a product of levels i and j |
| Paths.Subtract | src/signature.js:118 | succeeds exactly when the two points have equal length, and otherwise fails with DimensionMismatch. The result r carries q onto p: q[j] + r[j] == p[j]. |
| Paths.Increment | src/signature.js:118 | the increment between consecutive points carries X[i] onto X[i+1] |
| Paths.Increments | src/signature.js:147-148 | a rectangular path of N points has N - 1 increments of dimension d, the i-th being X[i+1] - X[i] |
| Paths.Length | src/signature.js:114-122 | the front-to-back sum of the norms of the increments: a path of at most one point has length 0, and a path of two points the norm of its one increment |
| Paths.PathLength | src/signature.js:114-122 | succeeds exactly when the path is rectangular, and fails with DimensionMismatch otherwise. The result is the sum of the norms of the increments. A path of at most one point has length 0. |
| Paths.LengthNonNegative | src/signature.js:114-122 | with a non-negative norm, the length is non-negative |
| Paths.LengthSplit | src/signature.js:114-122 | length is additive: cutting at point j splits it into the length up to j and the length from j on |
| PathSignature.Level | src/signature.js:150-153 | level k of a segment signature has d^k entries |
| PathSignature.Segment | src/signature.js:149-154 | the segment signature of an increment is graded: n + 1 levels, level k of d^k entries |
| PathSignature.Chen | src/signature.js:161-170 | the Chen product of two graded signatures is graded, with level 0 the unit scalar |
| PathSignature.Signature | src/signature.js:158-172 | the signature of a list of increments is graded, with level 0 the unit scalar |
| PathSignature.PathSig | src/signature.js:131-144 | the signature of a path is graded over its dimension, with level 0 the unit scalar. A one-point path is read as the two-point path [p, p]. |
| PathSignature.ChenSum | src/signature.js:164-168 | the running sum of the first m terms S[l] (x) T[k - l], started from the zero tensor as `temp` is, has d^k entries |
| PathSignature.ChenLevel | src/signature.js:161-169 | level k of the Chen product has d^k entries: the unit scalar at level 0 (B[i][0] = 1), otherwise the running sum of all k + 1 terms |
| PathSignature.ChenSumStep | src/signature.js:164-168 | adding term l, S[l] (x) T[k - l] of d^k entries, to the first l terms gives the first l + 1 |
| Paths.IncrementsSplit | src/signature.js:147-148 | cutting a path at point j splits its increments into those of the points up to j followed by those of the points from j on |
| PathSignature.Sig | src/signature.js:131-173 | the error cases, in the original's order: an empty path gives NotAMatrix, points without coordinates give NonPositiveDimension, and a ragged path gives DimensionMismatch. It succeeds exactly when none applies, and the result equals the signature of the path. |
| PathSignature.SegmentTable | src/signature.js:147-155 | row i of table A holds the segment signature of increment i. The first ragged pair stops it with DimensionMismatch. |
| PathSignature.ChenFold | src/signature.js:158-172 | every row i of B holds the signature of the first i + 1 increments, so the last row holds the signature of all of them |
| PathSignature.ChenRow | src/signature.js:161-170 | row i of B becomes the Chen product of row i - 1 of B and row i of A. The other rows are unchanged. |
| PathSignature.ChenLevelSum | src/signature.js:163-168 | the running sum over l = 0 .. k of B[i-1][l] (x) A[i][k-l] is level k of the Chen product |
| PathSignature.LastRow | src/signature.js:172 | the returned signature holds the n + 1 levels of the last row of B |
| PathSignature.PrefixSignatureFirst | src/signature.js:159 | the signature of the first increment is its segment signature (B[0] = A[0]) |
| PathSignature.PrefixSignatureLast | src/signature.js:172 | the last row of the fold is the signature of all the increments |
| PathSignature.SignatureStep | src/signature.js:160-171 | Chen step: the signature of the first i + 1 increments is the Chen product of the signature of the first i and the segment signature of increment i |
| PathSignature.SegmentLevelZero | src/signature.js:150-153 | level 0 of a segment signature is the unit scalar, tensorPow(v, 0) / 0! = 1 |
| PathSignature.SegmentLevelOne | src/signature.js:150-153 | level 1 of a segment signature is the increment itself |
| PathSignature.SegmentEntry | src/signature.js:150-153 | entry (i1, ..., ik) of level k of a segment signature is v[i1] * ... * v[ik] / k! |
| PathSignature.ZeroSegmentLevel | src/signature.js:150-153 | every level k >= 1 of the segment signature of the zero vector is zero |
| PathSignature.OnePointPath | src/signature.js:143-144 | a one-point path has the zero tensor of d^k entries at every level 1 .. n |
| PathSignature.SingleSegment | src/signature.js:158-172 | a two-point path has the segment signature of its increment, so level 1 carries X[0] onto X[1] |
| PathSignature.ChenLevelOne | src/signature.js:161-170 | level 1 of a Chen product of signatures is the sum of their levels 1 |
| PathSignature.SignatureLevelOne | src/signature.js:158-172 | level 1 of the signature of a list of increments is their sum |
| PathSignature.Telescope | src/signature.js:147-148 | the increments of a path sum to the last point minus the first |
| PathSignature.PathLevelOne | src/signature.js:131-173 | level 1 of the signature of a path is its total displacement, last point minus first |
| ChenIdentity.ChenLevelIsSum | src/signature.js:161-170 | for signatures with unit level 0, every level k of their Chen product, k = 0 included, is the sum over l = 0 .. k of S[l] (x) T[k - l] |
| ChenIdentity.ChenAssoc | src/signature.js:161-170 | the Chen product of signatures with unit level 0 is associative |
| ChenIdentity.SignatureConcat | src/signature.js:158-172 | Chen's identity: the signature of the increments A followed by the increments B is the Chen product of the signature of A and the signature of B |
| ChenIdentity.PathSigSplit | src/signature.js:131-173 | cutting a path at an inner point j, its signature is the Chen product of the signatures of the points up to j and of the points from j on |
| Display.GridReindex | src/plotter.js:39-40 | the grid of 2^ceil(i/2) by 2^floor(i/2) cells holds exactly the 2^i entries of level i, so reindexing any cell into [2, ..., 2] succeeds with an in-range multi-index |

## Left out

- Floating point. The arithmetic is over exact reals. Rounding, overflow and non-finite coordinates are not modelled.
- The math library's dynamic dispatch between numbers and nested arrays. A tensor is always a flat `seq<real>`, and a scalar is a one-entry sequence. The nesting of the original's arrays is replaced by the row-major layout, which the `IndexCodec` lemmas tie to the flat position.
- IntToIndex: on a one-axis shape the original returns the bare number m, not a one-element array. The model returns `[m]`. Flattening makes the two agree everywhere else.
- IndexToInt: on an empty index the original recurses until the call stack overflows. The model returns `Err(CallStackExceeded)` instead of running forever.
- The truncation level `n` is a natural number throughout (`Sig`, `PathSig`, `Segment`). A negative or fractional `n` would reach `math.zeros([N-1, n+1])` with a degenerate or invalid size in the original; that case is not modelled.
- Negative and fractional flat indices and index components are not modelled. The original documents them as non-negative integers, and the model takes `nat`.
- Paths.PathLength: `math.norm` (the Euclidean norm, a square root) is a function parameter. A ragged path makes the original's subtraction throw, which the model reports as `DimensionMismatch`. The accumulation is a `while` loop with the original's bounds.
- The math library's `math.size`, which rejects nothing on a ragged list. A path is a `seq<seq<real>>`, so the only "not an N by d matrix" case left is the empty path, for which `math.size` reports one dimension.
- PathSignature.Sig: the two phases of the original's body are the methods `SegmentTable` (phase 1) and `ChenFold` (phase 2). The Chen row and the inner running sum are the methods `ChenRow` and `ChenLevelSum`. They keep the original's loops and array updates. The original's `B[0] = A[0]` makes row 0 of B share storage with row 0 of A. The model copies the row. Neither row is written afterwards, so the results agree.
- ChenIdentity.PathSigSplit: the cut point must be inner, so that both pieces have at least two points. A one-point piece would need the unit laws of the Chen product, which are not proved.
- The user interface: canvas input capture, table drawing, colour scales and rounding. Of the display code, only the grid shape used for reindexing (`Display.GridReindex`) is modelled.
- The build configuration and the setup of the math library.
