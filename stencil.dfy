/** What one assembly of the 2D electron continuity equation computes, as functions of
    the grid data it reads: the five band values of the Scharfetter-Gummel stencil and the
    right-hand side with the boundary densities folded in.

    The grid has num_cell + 1 = n + 2 points per axis (indices 0..n+1); the n x n interior
    cells (i, j), 1 <= i, j <= n, are the unknowns, numbered 1..n*n by GridIndex.Flat.
    Matrices are indexed [x][z]. Face weights are taken against the lower neighbour:
    posX[i][j] / negX[i][j] belong to the face between (i-1, j) and (i, j), and
    posZ[i][j] / negZ[i][j] to the face between (i, j-1) and (i, j). */
module Stencil {
  import opened GridIndex
  import opened Sparse

  type Matrix = seq<seq<real>>

  predicate Square(m: Matrix, size: int)
  {
    |m| == size && forall a :: 0 <= a < size ==> |m[a]| == size
  }

  /** A size x size matrix with every entry x. */
  function Constant(size: nat, x: real): (m: Matrix)
    ensures Square(m, size)
    ensures forall a, b :: 0 <= a < size && 0 <= b < size ==> m[a][b] == x
  {
    seq(size, _ => seq(size, _ => x))
  }

  /** m with entry (i, j) replaced by x (the in-place store m(i, j) = x). */
  function Put(m: Matrix, i: int, j: int, x: real): (r: Matrix)
    requires 0 <= i < |m| && 0 <= j < |m[i]|
    ensures |r| == |m| && forall a :: 0 <= a < |m| ==> |r[a]| == |m[a]|
    ensures r[i][j] == x
    ensures forall a, b :: 0 <= a < |m| && 0 <= b < |m[a]| && (a != i || b != j) ==> r[a][b] == m[a][b]
  {
    m[i := m[i][j := x]]
  }

  /** The four Bernoulli weight matrices of one assembly. */
  datatype Faces = Faces(posX: Matrix, negX: Matrix, posZ: Matrix, negZ: Matrix)

  /** Grid data for an n x n interior: mobility and weights on the (n+2) x (n+2) grid. */
  predicate Grid(n: int, mob: Matrix, f: Faces)
  {
    && n >= 1
    && Square(mob, n + 2)
    && Square(f.posX, n + 2) && Square(f.negX, n + 2)
    && Square(f.posZ, n + 2) && Square(f.negZ, n + 2)
  }

  function Avg(a: real, b: real): real
  {
    (a + b) / 2.0
  }

  // ---------------------------------------------------------------------------
  // The couplings of one interior cell (i, j), 1 <= i, j <= n

  /** The diagonal entry: the sum of the cell's four face terms, each an averaged
      mobility times the weight that multiplies this cell's density. */
  function MainCell(n: int, mob: Matrix, f: Faces, i: int, j: int): real
    requires Grid(n, mob, f) && 1 <= i <= n && 1 <= j <= n
  {
    Avg(mob[i][j], mob[i][j + 1]) * f.posX[i][j]
      + Avg(mob[i + 1][j], mob[i + 1][j + 1]) * f.negX[i + 1][j]
      + Avg(mob[i][j], mob[i + 1][j]) * f.posZ[i][j]
      + Avg(mob[i][j + 1], mob[i + 1][j + 1]) * f.negZ[i][j + 1]
  }

  /** The coupling to the x neighbour (i - 1, j) on the left: minus the averaged
      mobility of the shared face times the weight that multiplies the neighbour's
      density. */
  function LowerCell(n: int, mob: Matrix, f: Faces, i: int, j: int): real
    requires Grid(n, mob, f) && 1 <= i <= n && 1 <= j <= n
  {
    -Avg(mob[i][j], mob[i][j + 1]) * f.negX[i][j]
  }

  /** The coupling to the x neighbour (i + 1, j) on the right. */
  function UpperCell(n: int, mob: Matrix, f: Faces, i: int, j: int): real
    requires Grid(n, mob, f) && 1 <= i <= n && 1 <= j <= n
  {
    -Avg(mob[i + 1][j], mob[i + 1][j + 1]) * f.posX[i + 1][j]
  }

  /** The coupling to the z neighbour (i, j - 1) below. */
  function FarLowerCell(n: int, mob: Matrix, f: Faces, i: int, j: int): real
    requires Grid(n, mob, f) && 1 <= i <= n && 1 <= j <= n
  {
    -Avg(mob[i][j], mob[i + 1][j]) * f.negZ[i][j]
  }

  /** The coupling to the z neighbour (i, j + 1) above. */
  function FarUpperCell(n: int, mob: Matrix, f: Faces, i: int, j: int): real
    requires Grid(n, mob, f) && 1 <= i <= n && 1 <= j <= n
  {
    -Avg(mob[i][j + 1], mob[i + 1][j + 1]) * f.posZ[i][j + 1]
  }

  // ---------------------------------------------------------------------------
  // Band values, by band position k (1-based, as the band vectors are filled)

  /** far_lower_diag[k], k in 1..n*(n-1): the cell of unknown k + n, in rows 2..n, to the
      cell below it. */
  function FarLowerAt(n: int, mob: Matrix, f: Faces, k: int): real
    requires Grid(n, mob, f) && 1 <= k <= n * n - n
  {
    CoordsInLowerRows(n, k);
    FarLowerCell(n, mob, f, ColOf(n, k), RowOf(n, k) + 1)
  }

  /** lower_diag[k], k in 1..n*n-1 where the cell of k does not close its x-row: the cell of
      unknown k + 1 to its left neighbour, the cell of k. */
  function LowerAt(n: int, mob: Matrix, f: Faces, k: int): real
    requires Grid(n, mob, f) && 1 <= k < n * n && ColOf(n, k) != n
  {
    CoordsInGrid(n, k + 1);
    LowerCell(n, mob, f, ColOf(n, k + 1), RowOf(n, k + 1))
  }

  /** main_diag[k], k in 1..n*n: the diagonal entry of the cell of unknown k. */
  function MainAt(n: int, mob: Matrix, f: Faces, k: int): real
    requires Grid(n, mob, f) && 1 <= k <= n * n
  {
    CoordsInGrid(n, k);
    MainCell(n, mob, f, ColOf(n, k), RowOf(n, k))
  }

  /** upper_diag[k], k in 1..n*n-1 where the cell of k does not close its x-row: the cell
      of unknown k to its right neighbour, the cell of k + 1. */
  function UpperAt(n: int, mob: Matrix, f: Faces, k: int): real
    requires Grid(n, mob, f) && 1 <= k < n * n && ColOf(n, k) != n
  {
    CoordsInGrid(n, k);
    UpperCell(n, mob, f, ColOf(n, k), RowOf(n, k))
  }

  /** far_upper_diag[k], k in 1..n*(n-1): the cell of unknown k, in rows 1..n-1, to the
      cell above it. */
  function FarUpperAt(n: int, mob: Matrix, f: Faces, k: int): real
    requires Grid(n, mob, f) && 1 <= k <= n * n - n
  {
    CoordsInLowerRows(n, k);
    FarUpperCell(n, mob, f, ColOf(n, k), RowOf(n, k))
  }

  // ---------------------------------------------------------------------------
  // The band vectors one assembly leaves behind (index 0 is never written)

  lemma OffDiagonalCount(n: int)
    requires n >= 1
    ensures n * n - n >= 0 && n * n >= 1
  {
    MulMonotone(1, n, n);
  }

  /** The band positions no setter writes: 0, and the positions whose cell closes an
      x-row, where lower_diag and upper_diag would couple a row's last cell to the next
      row's first. */
  predicate Skipped(n: int, k: int)
    requires n >= 1
  {
    k == 0 || ColOf(n, k) == n
  }

  /** A lower or upper band vector of n*n entries that is 0 at every skipped position. */
  predicate ZeroWhereSkipped(n: int, band: seq<real>)
    requires n >= 1
  {
    |band| == n * n && forall k :: 0 <= k < n * n && Skipped(n, k) ==> band[k] == 0.0
  }

  /** far_lower_diag after set_far_lower_diag: entry k (1..n*(n-1)) is FarLowerAt(k). */
  function FarLowerBand(n: int, mob: Matrix, f: Faces): (b: seq<real>)
    requires Grid(n, mob, f)
    ensures |b| == n * n - n + 1 && b[0] == 0.0
    ensures forall k :: 1 <= k <= n * n - n ==> b[k] == FarLowerAt(n, mob, f, k)
  {
    OffDiagonalCount(n);
    [0.0] + seq(n * n - n, m requires 0 <= m < n * n - n => FarLowerAt(n, mob, f, m + 1))
  }

  /** lower_diag after set_lower_diag: entry k (1..n*n-1) is LowerAt(k), except at the
      skipped positions, which keep their initial 0. */
  function LowerBand(n: int, mob: Matrix, f: Faces): (b: seq<real>)
    requires Grid(n, mob, f)
    ensures ZeroWhereSkipped(n, b)
    ensures forall k :: 1 <= k < n * n && !Skipped(n, k) ==> b[k] == LowerAt(n, mob, f, k)
  {
    OffDiagonalCount(n);
    seq(n * n, k requires 0 <= k < n * n => if Skipped(n, k) then 0.0 else LowerAt(n, mob, f, k))
  }

  /** main_diag after set_main_diag: entry k (1..n*n) is MainAt(k). */
  function MainBand(n: int, mob: Matrix, f: Faces): (b: seq<real>)
    requires Grid(n, mob, f)
    ensures |b| == n * n + 1 && b[0] == 0.0
    ensures forall k :: 1 <= k <= n * n ==> b[k] == MainAt(n, mob, f, k)
  {
    OffDiagonalCount(n);
    [0.0] + seq(n * n, m requires 0 <= m < n * n => MainAt(n, mob, f, m + 1))
  }

  /** upper_diag after set_upper_diag: entry k (1..n*n-1) is UpperAt(k), except at the
      skipped positions, which keep their initial 0. */
  function UpperBand(n: int, mob: Matrix, f: Faces): (b: seq<real>)
    requires Grid(n, mob, f)
    ensures ZeroWhereSkipped(n, b)
    ensures forall k :: 1 <= k < n * n && !Skipped(n, k) ==> b[k] == UpperAt(n, mob, f, k)
  {
    OffDiagonalCount(n);
    seq(n * n, k requires 0 <= k < n * n => if Skipped(n, k) then 0.0 else UpperAt(n, mob, f, k))
  }

  /** far_upper_diag after set_far_upper_diag: entry k (1..n*(n-1)) is FarUpperAt(k). */
  function FarUpperBand(n: int, mob: Matrix, f: Faces): (b: seq<real>)
    requires Grid(n, mob, f)
    ensures |b| == n * n - n + 1 && b[0] == 0.0
    ensures forall k :: 1 <= k <= n * n - n ==> b[k] == FarUpperAt(n, mob, f, k)
  {
    OffDiagonalCount(n);
    [0.0] + seq(n * n - n, m requires 0 <= m < n * n - n => FarUpperAt(n, mob, f, m + 1))
  }

  // ---------------------------------------------------------------------------
  // The operator stated cell by cell

  /** Entry (r, c) of the discretised operator stated on the grid: rows and columns are
      the unknowns r + 1 and c + 1; a cell couples to itself by its diagonal entry and to
      each of its four geometric neighbours by that neighbour's face coupling; it couples
      to nothing else. */
  function NeighbourMatrix(n: int, mob: Matrix, f: Faces, r: int, c: int): real
    requires Grid(n, mob, f) && 0 <= r < n * n && 0 <= c < n * n
  {
    CoordsInGrid(n, r + 1);
    CoordsInGrid(n, c + 1);
    var i, j := ColOf(n, r + 1), RowOf(n, r + 1);
    var i', j' := ColOf(n, c + 1), RowOf(n, c + 1);
    if i' == i && j' == j then MainCell(n, mob, f, i, j)
    else if i' == i - 1 && j' == j then LowerCell(n, mob, f, i, j)
    else if i' == i + 1 && j' == j then UpperCell(n, mob, f, i, j)
    else if i' == i && j' == j - 1 then FarLowerCell(n, mob, f, i, j)
    else if i' == i && j' == j + 1 then FarUpperCell(n, mob, f, i, j)
    else 0.0
  }

  /** Two distinct unknowns are geometric neighbours only at offsets 1 and n. */
  lemma NeighbourOffsets(n: int, r: int, c: int)
    requires n >= 1 && 0 <= r < n * n && 0 <= c < n * n
    ensures var i, j, i', j' := ColOf(n, r + 1), RowOf(n, r + 1), ColOf(n, c + 1), RowOf(n, c + 1);
            && (i' == i && j' == j ==> c == r)
            && (i' == i - 1 && j' == j ==> c == r - 1)
            && (i' == i + 1 && j' == j ==> c == r + 1)
            && (i' == i && j' == j - 1 ==> c == r - n)
            && (i' == i && j' == j + 1 ==> c == r + n)
  {
    CoordsThenFlat(n, r + 1);
    CoordsThenFlat(n, c + 1);
    var j, j' := RowOf(n, r + 1), RowOf(n, c + 1);
    FlatClosed(n, ColOf(n, r + 1), j);
    FlatClosed(n, ColOf(n, c + 1), j');
    assert (j - 2) * n == (j - 1) * n - n;
    assert j * n == (j - 1) * n + n;
  }

  /** The diagonal: the sum of the cell's own four face terms. */
  lemma MainCoupling(n: int, mob: Matrix, f: Faces, r: int)
    requires Grid(n, mob, f) && 0 <= r < n * n
    ensures MainBand(n, mob, f)[r + 1] == NeighbourMatrix(n, mob, f, r, r)
    ensures BandMatrix(n, FarLowerBand(n, mob, f), LowerBand(n, mob, f), MainBand(n, mob, f),
                       UpperBand(n, mob, f), FarUpperBand(n, mob, f), r, r) == MainBand(n, mob, f)[r + 1]
  {
  }

  /** The one-cell step down (c = r - 1): the lower band's coupling to the x neighbour,
      and 0 across the start of an x-row. */
  lemma LowerCoupling(n: int, mob: Matrix, f: Faces, r: int)
    requires Grid(n, mob, f) && 1 <= r < n * n
    ensures LowerBand(n, mob, f)[r] == NeighbourMatrix(n, mob, f, r, r - 1)
    ensures BandMatrix(n, FarLowerBand(n, mob, f), LowerBand(n, mob, f), MainBand(n, mob, f),
                       UpperBand(n, mob, f), FarUpperBand(n, mob, f), r, r - 1) == LowerBand(n, mob, f)[r]
  {
    NextCell(n, r);
    assert n != 1;
    CoordsInGrid(n, r);
    CoordsInGrid(n, r + 1);
    if Skipped(n, r) {
      assert LowerBand(n, mob, f)[r] == 0.0;
      assert NeighbourMatrix(n, mob, f, r, r - 1) == 0.0;
    } else {
      var i, j := ColOf(n, r + 1), RowOf(n, r + 1);
      assert LowerAt(n, mob, f, r) == LowerCell(n, mob, f, i, j);
      assert NeighbourMatrix(n, mob, f, r, r - 1) == LowerCell(n, mob, f, i, j);
    }
  }

  /** The one-cell step up (c = r + 1). */
  lemma UpperCoupling(n: int, mob: Matrix, f: Faces, r: int)
    requires Grid(n, mob, f) && 0 <= r && r + 1 < n * n
    ensures UpperBand(n, mob, f)[r + 1] == NeighbourMatrix(n, mob, f, r, r + 1)
    ensures BandMatrix(n, FarLowerBand(n, mob, f), LowerBand(n, mob, f), MainBand(n, mob, f),
                       UpperBand(n, mob, f), FarUpperBand(n, mob, f), r, r + 1) == UpperBand(n, mob, f)[r + 1]
  {
    NextCell(n, r + 1);
    assert n != 1;
    CoordsInGrid(n, r + 1);
    CoordsInGrid(n, r + 2);
    if Skipped(n, r + 1) {
      assert UpperBand(n, mob, f)[r + 1] == 0.0;
      assert NeighbourMatrix(n, mob, f, r, r + 1) == 0.0;
    } else {
      var i, j := ColOf(n, r + 1), RowOf(n, r + 1);
      assert UpperAt(n, mob, f, r + 1) == UpperCell(n, mob, f, i, j);
      assert NeighbourMatrix(n, mob, f, r, r + 1) == UpperCell(n, mob, f, i, j);
    }
  }

  /** The step down by a row (c = r - n). */
  lemma FarLowerCoupling(n: int, mob: Matrix, f: Faces, r: int)
    requires Grid(n, mob, f) && n <= r < n * n
    ensures FarLowerBand(n, mob, f)[r - n + 1] == NeighbourMatrix(n, mob, f, r, r - n)
    ensures BandMatrix(n, FarLowerBand(n, mob, f), LowerBand(n, mob, f), MainBand(n, mob, f),
                       UpperBand(n, mob, f), FarUpperBand(n, mob, f), r, r - n) == FarLowerBand(n, mob, f)[r - n + 1]
  {
    assert n != 1;
    NextRow(n, r - n + 1);
    CoordsInGrid(n, r + 1);
  }

  /** The step up by a row (c = r + n). */
  lemma FarUpperCoupling(n: int, mob: Matrix, f: Faces, r: int)
    requires Grid(n, mob, f) && 0 <= r && r + n < n * n
    ensures FarUpperBand(n, mob, f)[r + 1] == NeighbourMatrix(n, mob, f, r, r + n)
    ensures BandMatrix(n, FarLowerBand(n, mob, f), LowerBand(n, mob, f), MainBand(n, mob, f),
                       UpperBand(n, mob, f), FarUpperBand(n, mob, f), r, r + n) == FarUpperBand(n, mob, f)[r + 1]
  {
    assert n != 1;
    NextRow(n, r + 1);
    CoordsInGrid(n, r + 1);
    CoordsInGrid(n, r + n + 1);
  }

  /** Off the offsets 0, +-1 and +-n no two cells are neighbours. */
  lemma NoCoupling(n: int, mob: Matrix, f: Faces, r: int, c: int)
    requires Grid(n, mob, f) && 0 <= r < n * n && 0 <= c < n * n
    requires c != r && c != r - 1 && c != r + 1 && c != r - n && c != r + n
    ensures NeighbourMatrix(n, mob, f, r, c) == 0.0
    ensures BandMatrix(n, FarLowerBand(n, mob, f), LowerBand(n, mob, f), MainBand(n, mob, f),
                       UpperBand(n, mob, f), FarUpperBand(n, mob, f), r, c) == 0.0
  {
    NeighbourOffsets(n, r, c);
  }

  /** BandsAreNeighbourMatrix within one x-row step of the diagonal. */
  lemma NearCoupling(n: int, mob: Matrix, f: Faces, r: int, c: int)
    requires Grid(n, mob, f) && 0 <= r < n * n && 0 <= c < n * n && r - 1 <= c <= r + 1
    ensures BandMatrix(n, FarLowerBand(n, mob, f), LowerBand(n, mob, f), MainBand(n, mob, f),
                       UpperBand(n, mob, f), FarUpperBand(n, mob, f), r, c)
         == NeighbourMatrix(n, mob, f, r, c)
  {
    if c == r {
      MainCoupling(n, mob, f, r);
    } else if c == r - 1 {
      LowerCoupling(n, mob, f, r);
    } else {
      UpperCoupling(n, mob, f, r);
    }
  }

  /** BandsAreNeighbourMatrix further than one step from the diagonal. */
  lemma FarCoupling(n: int, mob: Matrix, f: Faces, r: int, c: int)
    requires Grid(n, mob, f) && 0 <= r < n * n && 0 <= c < n * n && (c < r - 1 || r + 1 < c)
    ensures BandMatrix(n, FarLowerBand(n, mob, f), LowerBand(n, mob, f), MainBand(n, mob, f),
                       UpperBand(n, mob, f), FarUpperBand(n, mob, f), r, c)
         == NeighbourMatrix(n, mob, f, r, c)
  {
    if c == r - n {
      FarLowerCoupling(n, mob, f, r);
    } else if c == r + n {
      FarUpperCoupling(n, mob, f, r);
    } else {
      NoCoupling(n, mob, f, r, c);
    }
  }

  /** The five band vectors, placed at offsets 0, 1 and n, are exactly the cell-by-cell
      operator: the couplings the hand-stepped counters compute are those of the geometric
      neighbours, and the band entries that would join the last cell of one x-row to the
      first cell of the next are the zeros the loops leave in place. */
  lemma BandsAreNeighbourMatrix(n: int, mob: Matrix, f: Faces, r: int, c: int)
    requires Grid(n, mob, f) && 0 <= r < n * n && 0 <= c < n * n
    ensures BandMatrix(n, FarLowerBand(n, mob, f), LowerBand(n, mob, f), MainBand(n, mob, f),
                       UpperBand(n, mob, f), FarUpperBand(n, mob, f), r, c)
         == NeighbourMatrix(n, mob, f, r, c)
  {
    if r - 1 <= c <= r + 1 {
      NearCoupling(n, mob, f, r, c);
    } else {
      FarCoupling(n, mob, f, r, c);
    }
  }

  // ---------------------------------------------------------------------------
  // Properties of the stencil

  /** With positive mobilities and weights every main-diagonal entry is positive. */
  lemma MainDiagPositive(n: int, mob: Matrix, f: Faces, k: int)
    requires Grid(n, mob, f) && 1 <= k <= n * n
    requires forall a, b :: 1 <= a <= n + 1 && 1 <= b <= n + 1 ==> mob[a][b] > 0.0
    requires forall a, b :: 1 <= a <= n + 1 && 1 <= b <= n + 1 ==>
               f.posX[a][b] > 0.0 && f.negX[a][b] > 0.0 && f.posZ[a][b] > 0.0 && f.negZ[a][b] > 0.0
    ensures MainAt(n, mob, f, k) > 0.0
  {
    CoordsInGrid(n, k);
    var i, j := ColOf(n, k), RowOf(n, k);
    var t1 := Avg(mob[i][j], mob[i][j + 1]) * f.posX[i][j];
    var t2 := Avg(mob[i + 1][j], mob[i + 1][j + 1]) * f.negX[i + 1][j];
    var t3 := Avg(mob[i][j], mob[i + 1][j]) * f.posZ[i][j];
    var t4 := Avg(mob[i][j + 1], mob[i + 1][j + 1]) * f.negZ[i][j + 1];
    assert MainAt(n, mob, f, k) == t1 + t2 + t3 + t4;
    assert t1 > 0.0 && t2 > 0.0 && t3 > 0.0 && t4 > 0.0;
  }

  /** Along a flat potential (all weights 1) with uniform mobility m the stencil is the
      five-point Laplacian: 4m on the diagonal and -m on every coupling to a neighbour. */
  lemma FlatPotentialLaplacian(n: int, mob: Matrix, f: Faces, m: real, k: int)
    requires Grid(n, mob, f)
    requires forall a, b :: 0 <= a < n + 2 && 0 <= b < n + 2 ==> mob[a][b] == m
    requires forall a, b :: 0 <= a < n + 2 && 0 <= b < n + 2 ==>
               f.posX[a][b] == 1.0 && f.negX[a][b] == 1.0 && f.posZ[a][b] == 1.0 && f.negZ[a][b] == 1.0
    requires 1 <= k <= n * n
    ensures MainAt(n, mob, f, k) == 4.0 * m
    ensures k <= n * n - n ==> FarLowerAt(n, mob, f, k) == -m && FarUpperAt(n, mob, f, k) == -m
    ensures k < n * n && !Skipped(n, k) ==> LowerAt(n, mob, f, k) == -m && UpperAt(n, mob, f, k) == -m
  {
    CoordsInGrid(n, k);
    if k < n * n {
      CoordsInGrid(n, k + 1);
    }
    if k <= n * n - n {
      CoordsInLowerRows(n, k);
    }
  }

  // ---------------------------------------------------------------------------
  // Right-hand side

  /** The boundary densities and the right-hand side inputs, all on the (n+2)-point grid. */
  predicate RhsShape(n: int, un: Matrix, mob: Matrix, f: Faces,
                     left: seq<real>, right: seq<real>, bottom: seq<real>, top: seq<real>)
  {
    && Grid(n, mob, f) && Square(un, n + 2)
    && |left| == n + 2 && |right| == n + 2 && |bottom| == n + 2 && |top| == n + 2
  }

  /** rhs at the unknown of cell (i, j) as set_rhs computes it: Cn * Un(i, j) plus the
      boundary terms, chosen by the row block (j == 1, j == n, otherwise) and then by the
      column (i == 1, i == n, otherwise), in that order of precedence. */
  function RhsCell(n: int, cn: real, un: Matrix, mob: Matrix, f: Faces,
                   left: seq<real>, right: seq<real>, bottom: seq<real>, top: seq<real>, i: int, j: int): real
    requires RhsShape(n, un, mob, f, left, right, bottom, top) && 1 <= i <= n && 1 <= j <= n
  {
    var base := cn * un[i][j];
    if j == 1 then
      if i == 1 then base + mob[i][j] * (f.negX[i][j] * left[1] + f.negZ[i][j] * bottom[i])
      else if i == n then base + mob[i][j] * (f.negZ[i][j] * bottom[i] + f.posX[i + 1][j] * right[1])
      else base + mob[i][j] * f.negZ[i][j] * bottom[i]
    else if j == n then
      if i == 1 then base + mob[i][j] * (f.negX[i][j] * left[n] + f.posZ[i][j + 1] * top[i])
      else if i == n then base + mob[i][j] * (f.posX[i + 1][j] * right[n] + f.posZ[i][j + 1] * top[i])
      else base + mob[i][j] * f.posZ[i][j + 1] * top[i]
    else
      if i == 1 then base + mob[i][j] * f.negX[i][j] * left[j]
      else if i == n then base + mob[i][j] * f.posX[i + 1][j] * right[j]
      else base
  }

  /** rhs[k], k in 1..n*n: RhsCell of the cell of unknown k. */
  function RhsAt(n: int, cn: real, un: Matrix, mob: Matrix, f: Faces,
                 left: seq<real>, right: seq<real>, bottom: seq<real>, top: seq<real>, k: int): real
    requires RhsShape(n, un, mob, f, left, right, bottom, top) && 1 <= k <= n * n
  {
    CoordsInGrid(n, k);
    RhsCell(n, cn, un, mob, f, left, right, bottom, top, ColOf(n, k), RowOf(n, k))
  }

  /** The boundary-folding rule stated side by side: each of the four boundaries the cell
      touches contributes mobility * weight * boundary density, independently. */
  function RhsReference(n: int, cn: real, un: Matrix, mob: Matrix, f: Faces,
                        left: seq<real>, right: seq<real>, bottom: seq<real>, top: seq<real>, k: int): real
    requires RhsShape(n, un, mob, f, left, right, bottom, top) && 1 <= k <= n * n
  {
    CoordsInGrid(n, k);
    var i, j := ColOf(n, k), RowOf(n, k);
    cn * un[i][j]
      + (if i == 1 then mob[i][j] * (f.negX[i][j] * left[j]) else 0.0)
      + (if i == n then mob[i][j] * (f.posX[i + 1][j] * right[j]) else 0.0)
      + (if j == 1 then mob[i][j] * (f.negZ[i][j] * bottom[i]) else 0.0)
      + (if j == n then mob[i][j] * (f.posZ[i][j + 1] * top[i]) else 0.0)
  }

  /** Proof helper (real arithmetic): multiplication distributes over a sum. */
  lemma Distribute(m: real, a: real, b: real)
    ensures m * (a + b) == m * a + m * b
  {
  }

  /** Proof helper (real arithmetic): regrouping a product of three factors. */
  lemma Associate(m: real, a: real, b: real)
    ensures m * a * b == m * (a * b)
  {
  }

  /** For every grid with at least two interior cells per axis the case analysis of
      set_rhs is exactly the side-by-side rule: corners get two boundary terms, edges one,
      strictly interior cells none. */
  lemma RhsMatchesReference(n: int, cn: real, un: Matrix, mob: Matrix, f: Faces,
                            left: seq<real>, right: seq<real>, bottom: seq<real>, top: seq<real>, k: int)
    requires RhsShape(n, un, mob, f, left, right, bottom, top) && 1 <= k <= n * n
    requires n >= 2
    ensures RhsAt(n, cn, un, mob, f, left, right, bottom, top, k)
         == RhsReference(n, cn, un, mob, f, left, right, bottom, top, k)
  {
    CoordsInGrid(n, k);
    var i, j := ColOf(n, k), RowOf(n, k);
    var m := mob[i][j];
    var l, r := f.negX[i][j] * left[j], f.posX[i + 1][j] * right[j];
    var b, t := f.negZ[i][j] * bottom[i], f.posZ[i][j + 1] * top[i];
    if j == 1 && i == 1 {
      Distribute(m, l, b);
    } else if j == 1 && i == n {
      Distribute(m, b, r);
    } else if j == n && i == 1 {
      Distribute(m, l, t);
    } else if j == n && i == n {
      Distribute(m, r, t);
    } else if j == 1 {
      Associate(m, f.negZ[i][j], bottom[i]);
    } else if j == n {
      Associate(m, f.posZ[i][j + 1], top[i]);
    } else if i == 1 {
      Associate(m, f.negX[i][j], left[j]);
    } else if i == n {
      Associate(m, f.posX[i + 1][j], right[j]);
    }
  }

  /** With a single interior cell the side-by-side rule gives all four boundary terms. */
  lemma SingleCellReference(n: int, cn: real, un: Matrix, mob: Matrix, f: Faces,
                            left: seq<real>, right: seq<real>, bottom: seq<real>, top: seq<real>)
    requires n == 1 && RhsShape(n, un, mob, f, left, right, bottom, top)
    ensures RhsReference(n, cn, un, mob, f, left, right, bottom, top, 1)
         == cn * un[1][1] + mob[1][1] * (f.negX[1][1] * left[1]) + mob[1][1] * (f.posX[2][1] * right[1])
            + mob[1][1] * (f.negZ[1][1] * bottom[1]) + mob[1][1] * (f.posZ[1][2] * top[1])
  {
    var i, j := ColOf(n, 1), RowOf(n, 1);
    assert i == 1 && j == 1;
    var m := mob[i][j];
    var l := if i == 1 then m * (f.negX[i][j] * left[j]) else 0.0;
    var r := if i == n then m * (f.posX[i + 1][j] * right[j]) else 0.0;
    var b := if j == 1 then m * (f.negZ[i][j] * bottom[i]) else 0.0;
    var t := if j == n then m * (f.posZ[i][j + 1] * top[i]) else 0.0;
    assert RhsReference(n, cn, un, mob, f, left, right, bottom, top, 1) == cn * un[i][j] + l + r + b + t;
  }

  /** The first unknown (the corner cell (1, 1)) receives the left and the bottom term. */
  lemma RhsFirstCell(n: int, cn: real, un: Matrix, mob: Matrix, f: Faces,
                     left: seq<real>, right: seq<real>, bottom: seq<real>, top: seq<real>)
    requires RhsShape(n, un, mob, f, left, right, bottom, top)
    ensures RhsAt(n, cn, un, mob, f, left, right, bottom, top, 1)
         == cn * un[1][1] + mob[1][1] * (f.negX[1][1] * left[1] + f.negZ[1][1] * bottom[1])
  {
    assert ColOf(n, 1) == 1 && RowOf(n, 1) == 1;
  }

  /** With a single interior cell (n == 1) the first case of set_rhs is taken, so the one
      row receives the left and bottom terms but neither the right nor the top one that the
      side-by-side rule would add. */
  lemma SingleCellRhs(n: int, cn: real, un: Matrix, mob: Matrix, f: Faces,
                      left: seq<real>, right: seq<real>, bottom: seq<real>, top: seq<real>)
    requires n == 1 && RhsShape(n, un, mob, f, left, right, bottom, top)
    ensures RhsAt(n, cn, un, mob, f, left, right, bottom, top, 1)
         == RhsReference(n, cn, un, mob, f, left, right, bottom, top, 1)
            - mob[1][1] * (f.posX[2][1] * right[1]) - mob[1][1] * (f.posZ[1][2] * top[1])
  {
    RhsFirstCell(n, cn, un, mob, f, left, right, bottom, top);
    SingleCellReference(n, cn, un, mob, f, left, right, bottom, top);
    Distribute(mob[1][1], f.negX[1][1] * left[1], f.negZ[1][1] * bottom[1]);
  }
}
