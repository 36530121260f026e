/** The display grid on which a level of a two-dimensional signature is
    laid out: level i, of 2^i entries, is reshaped into a grid of
    2^ceil(i/2) rows and 2^floor(i/2) columns, and each cell is labelled
    with the multi-index it came from by reindexing into [2, ..., 2]. */
module Display {
  import opened Outcome
  import opened Numbers
  import opened IndexCodec

  /** Rows and columns of the grid for level i. */
  function GridShape(i: nat): (shape: seq<nat>)
    ensures |shape| == 2
  {
    [Pow(2, (i + 1) / 2), Pow(2, i / 2)]
  }

  /** The grid holds exactly the 2^i entries of the level, the size of the
      shape [2, ..., 2] of a level-i tensor over R^2, so every cell of the
      grid reindexes to a multi-index of the level. */
  lemma {:induction false} GridReindex(i: nat, row: nat, col: nat)
    requires i >= 1 && row < Pow(2, (i + 1) / 2) && col < Pow(2, i / 2)
    ensures Prod(GridShape(i)) == Pow(2, i) == Prod(Repeat(2, i))
    ensures Reindex([row, col], GridShape(i), Repeat(2, i)).Ok?
    ensures InRange(Reindex([row, col], GridShape(i), Repeat(2, i)).value, Repeat(2, i))
  {
    var shape := GridShape(i);
    PowAdd(2, (i + 1) / 2, i / 2);
    assert (i + 1) / 2 + i / 2 == i;
    assert Prod(shape) == Prod([shape[0]]) * shape[1];
    assert Prod([shape[0]]) == Prod([]) * shape[0];
    ProdRepeat(2, i);
    assert InRange([row, col], shape);
    IndexToIntBound([row, col], shape);
  }
}
