/** The grid indexer: the coordinate <-> linear-index maps used by the assemblers
    and drivers.

    2D assembler: interior cells (i, j) with 1 <= i, j <= n are numbered from 1,
    x fastest: the unknown of cell (i, j) is (j - 1) * n + i.

    3D solver ordering: the Eigen tensors are shuffled to (z, y, x) and reshaped to a
    column in column-major order, so the 0-based cell (i, j, k) lands at
    k + nz * (j + ny * i): z is the fastest axis, x the slowest. */
module GridIndex {

  /** Euclidean division is unique: the quotient and remainder Dafny computes are
      the only ones with 0 <= r < q. */
  lemma DivModUnique(x: int, q: int, a: int, r: int)
    requires q > 0 && 0 <= r < q && x == a * q + r
    ensures x / q == a && x % q == r
  {
    var a', r' := x / q, x % q;
    assert x == a' * q + r';
    assert (a - a') * q == r' - r;
    if a > a' {
      assert (a - a') * q >= 1 * q by { MulMonotone(1, a - a', q); }
    } else if a < a' {
      assert (a' - a) * q >= 1 * q by { MulMonotone(1, a' - a, q); }
    }
  }

  lemma MulMonotone(a: int, b: int, q: int)
    requires a <= b && q >= 0
    ensures a * q <= b * q
  {
    assert b * q - a * q == (b - a) * q;
  }

  // ---------------------------------------------------------------------------
  // 2D, 1-based, x fastest. The maps are stated by whole x-rows of n unknowns, so
  // that the loops stepping them by hand reason linearly; CoordsDivMod and FlatClosed
  // give the closed forms.

  /** The unknown number of cell (i, j), j >= 1: i, plus n for every x-row below. */
  function Flat(n: int, i: int, j: int): (k: int)
    ensures n >= 0 && j >= 1 ==> k >= i
    decreases j
  {
    if j <= 1 then i else Flat(n, i, j - 1) + n
  }

  /** The x coordinate i of unknown k (k >= 1): k counted down by whole x-rows. */
  function ColOf(n: int, k: int): int
    requires n > 0
    decreases k
  {
    if k > n then ColOf(n, k - n) else k
  }

  /** The z coordinate j of unknown k (k >= 1): the number of x-rows counted off. */
  function RowOf(n: int, k: int): int
    requires n > 0
    decreases k
  {
    if k > n then RowOf(n, k - n) + 1 else 1
  }

  /** Closed form of the unknown number: (j - 1) * n + i. */
  lemma {:induction false} FlatClosed(n: int, i: int, j: int)
    requires j >= 1
    ensures Flat(n, i, j) == (j - 1) * n + i
    decreases j
  {
    if j > 1 {
      FlatClosed(n, i, j - 1);
      assert (j - 1) * n == (j - 2) * n + n;
    }
  }

  /** Moving d cells along an x-row moves the unknown by d. */
  lemma {:induction false} FlatShift(n: int, i: int, d: int, j: int)
    ensures Flat(n, i + d, j) == Flat(n, i, j) + d
    decreases j
  {
    if j > 1 {
      FlatShift(n, i, d, j - 1);
    }
  }

  /** Closed form of the coordinates: remainder and quotient of k - 1 by n, from 1. */
  lemma {:induction false} CoordsDivMod(n: int, k: int)
    requires n > 0 && k >= 1
    ensures ColOf(n, k) == (k - 1) % n + 1 && RowOf(n, k) == (k - 1) / n + 1
    decreases k
  {
    if k > n {
      CoordsDivMod(n, k - n);
      var q, r := (k - n - 1) / n, (k - n - 1) % n;
      assert k - n - 1 == q * n + r;
      DivModUnique(k - 1, n, q + 1, r);
    } else {
      DivModUnique(k - 1, n, 0, k - 1);
    }
  }

  /** Coordinates -> index -> coordinates is the identity. */
  lemma {:induction false} FlatThenCoords(n: int, i: int, j: int)
    requires n > 0 && 1 <= i <= n && j >= 1
    ensures ColOf(n, Flat(n, i, j)) == i && RowOf(n, Flat(n, i, j)) == j
    decreases j
  {
    if j > 1 {
      FlatThenCoords(n, i, j - 1);
    }
  }

  /** Index -> coordinates -> index is the identity, and the x coordinate is in 1..n. */
  lemma {:induction false} CoordsThenFlat(n: int, k: int)
    requires n > 0 && k >= 1
    ensures 1 <= ColOf(n, k) <= n && RowOf(n, k) >= 1
    ensures Flat(n, ColOf(n, k), RowOf(n, k)) == k
    decreases k
  {
    if k > n {
      CoordsThenFlat(n, k - n);
    }
  }

  /** Every cell of the first `rows` x-rows has an unknown in 1..rows*n ... */
  lemma FlatInRows(n: int, rows: int, i: int, j: int)
    requires 1 <= i <= n && 1 <= j <= rows
    ensures 1 <= Flat(n, i, j) <= rows * n
  {
    FlatClosed(n, i, j);
    MulMonotone(j - 1, rows - 1, n);
    assert (rows - 1) * n + n == rows * n;
  }

  /** ... in particular every interior cell of the n x n grid has an unknown in 1..n*n ... */
  lemma FlatInGrid(n: int, i: int, j: int)
    requires 1 <= i <= n && 1 <= j <= n
    ensures 1 <= Flat(n, i, j) <= n * n
  {
    FlatInRows(n, n, i, j);
  }

  /** ... and every unknown in 1..n*n belongs to an interior cell: with FlatInGrid and
      the two round trips, Flat is a bijection from [1..n] x [1..n] onto 1..n*n. */
  lemma CoordsInGrid(n: int, k: int)
    requires n > 0 && 1 <= k <= n * n
    ensures 1 <= ColOf(n, k) <= n && 1 <= RowOf(n, k) <= n
  {
    CoordsInRows(n, n, k);
  }

  /** Every unknown of the first `rows` grid rows (1..rows*n) has x coordinate in 1..n
      and z coordinate in 1..rows. */
  lemma CoordsInRows(n: int, rows: int, k: int)
    requires n > 0 && 1 <= k <= rows * n
    ensures 1 <= ColOf(n, k) <= n && 1 <= RowOf(n, k) <= rows
  {
    CoordsThenFlat(n, k);
    var i, j := ColOf(n, k), RowOf(n, k);
    FlatClosed(n, i, j);
    if j > rows {
      MulMonotone(rows, j - 1, n);
    }
  }

  /** The unknowns 1..n*n-n are the cells of the first n - 1 x-rows. */
  lemma CoordsInLowerRows(n: int, k: int)
    requires n > 0 && 1 <= k <= n * n - n
    ensures 1 <= ColOf(n, k) <= n && 1 <= RowOf(n, k) <= n - 1
  {
    assert n * n - n == (n - 1) * n;
    CoordsInRows(n, n - 1, k);
  }

  /** Two cells with the same unknown are the same cell. */
  lemma FlatInjective(n: int, i: int, j: int, a: int, b: int)
    requires n > 0 && 1 <= i <= n && j >= 1 && 1 <= a <= n && b >= 1
    requires Flat(n, a, b) == Flat(n, i, j)
    ensures a == i && b == j
  {
    FlatThenCoords(n, i, j);
    FlatThenCoords(n, a, b);
  }

  /** A cell whose unknown lies among the first `rows` x-rows' unknowns (at most rows*n)
      lies in rows 1..rows. */
  lemma FlatRowBound(n: int, rows: int, i: int, j: int)
    requires n > 0 && 1 <= i <= n && j >= 1 && Flat(n, i, j) <= rows * n
    ensures j <= rows
  {
    FlatThenCoords(n, i, j);
    CoordsInRows(n, rows, Flat(n, i, j));
  }

  /** The counters the assembly loops step by hand: advancing x by one, wrapping to the
      next row after the last column, is the same as advancing the linear position. */
  lemma DivModStep(n: int, x: int)
    requires n > 0 && x >= 0
    ensures (x + 1) % n == if x % n == n - 1 then 0 else x % n + 1
    ensures (x + 1) / n == if x % n == n - 1 then x / n + 1 else x / n
  {
    var q, r := x / n, x % n;
    assert x == q * n + r;
    if r == n - 1 {
      DivModUnique(x + 1, n, q + 1, 0);
    } else {
      DivModUnique(x + 1, n, q, r + 1);
    }
  }

  /** The next unknown is the next cell of the same x-row, or, after the last column, the
      first cell of the next row. */
  lemma {:induction false} NextCell(n: int, k: int)
    requires n > 0 && k >= 1
    ensures ColOf(n, k) < n ==> ColOf(n, k + 1) == ColOf(n, k) + 1 && RowOf(n, k + 1) == RowOf(n, k)
    ensures ColOf(n, k) == n ==> ColOf(n, k + 1) == 1 && RowOf(n, k + 1) == RowOf(n, k) + 1
    decreases k
  {
    if k > n {
      NextCell(n, k - n);
    }
  }

  /** The unknown n places further on is the cell directly above (same column, next row). */
  lemma NextRow(n: int, k: int)
    requires n > 0 && k >= 1
    ensures ColOf(n, k + n) == ColOf(n, k) && RowOf(n, k + n) == RowOf(n, k) + 1
  {
  }

  /** The column the halo rebuild computes (k mod n, with 0 read as n) is ColOf; in
      particular k is a multiple of n exactly when its cell closes an x-row. */
  lemma WrappedColumn(n: int, k: int)
    requires n > 0 && k >= 1
    ensures (if k % n == 0 then n else k % n) == ColOf(n, k)
    ensures k % n == 0 <==> ColOf(n, k) == n
  {
    CoordsDivMod(n, k);
    DivModStep(n, k - 1);
  }

  // ---------------------------------------------------------------------------
  // 3D solver ordering, 0-based, z fastest

  /** Position of the 0-based cell (i, j, k) in the solution column. */
  function Index3(ny: int, nz: int, i: int, j: int, k: int): int
  {
    k + nz * (j + ny * i)
  }

  /** The x coordinate of solution entry idx. */
  function XOf(ny: int, nz: int, idx: int): int
    requires ny > 0 && nz > 0
  {
    idx / nz / ny
  }

  /** The y coordinate of solution entry idx. */
  function YOf(ny: int, nz: int, idx: int): int
    requires ny > 0 && nz > 0
  {
    idx / nz % ny
  }

  /** The z coordinate of solution entry idx. */
  function ZOf(ny: int, nz: int, idx: int): int
    requires ny > 0 && nz > 0
  {
    idx % nz
  }

  /** Every cell of the nx x ny x nz grid has a position in 0..nx*ny*nz-1 ... */
  lemma Index3InRange(nx: int, ny: int, nz: int, i: int, j: int, k: int)
    requires 0 <= i < nx && 0 <= j < ny && 0 <= k < nz
    ensures 0 <= Index3(ny, nz, i, j, k) < nx * ny * nz
  {
    MulMonotone(0, i, ny);
    MulMonotone(i, nx - 1, ny);
    var m := j + ny * i;
    assert 0 <= m < nx * ny;
    MulMonotone(0, m, nz);
    MulMonotone(m, nx * ny - 1, nz);
    assert nx * ny * nz == (nx * ny) * nz;
  }

  /** ... from which its coordinates are recovered ... */
  lemma Index3ThenCoords(ny: int, nz: int, i: int, j: int, k: int)
    requires ny > 0 && nz > 0 && i >= 0 && 0 <= j < ny && 0 <= k < nz
    ensures XOf(ny, nz, Index3(ny, nz, i, j, k)) == i
    ensures YOf(ny, nz, Index3(ny, nz, i, j, k)) == j
    ensures ZOf(ny, nz, Index3(ny, nz, i, j, k)) == k
  {
    var idx := Index3(ny, nz, i, j, k);
    DivModUnique(idx, nz, j + ny * i, k);
    DivModUnique(j + ny * i, ny, i, j);
  }

  /** ... and every position in range is the position of a cell of the grid: Index3 is a
      bijection from the grid onto 0..nx*ny*nz-1. */
  lemma CoordsThenIndex3(nx: int, ny: int, nz: int, idx: int)
    requires ny > 0 && nz > 0 && 0 <= idx < nx * ny * nz
    ensures 0 <= XOf(ny, nz, idx) < nx && 0 <= YOf(ny, nz, idx) < ny && 0 <= ZOf(ny, nz, idx) < nz
    ensures Index3(ny, nz, XOf(ny, nz, idx), YOf(ny, nz, idx), ZOf(ny, nz, idx)) == idx
  {
    var m := idx / nz;
    assert idx == m * nz + idx % nz;
    assert m == XOf(ny, nz, idx) * ny + YOf(ny, nz, idx);
    assert m >= 0 by {
      if m < 0 { MulMonotone(m, -1, nz); }
    }
    assert m < nx * ny by {
      if m >= nx * ny { MulMonotone(nx * ny, m, nz); }
    }
    var x := XOf(ny, nz, idx);
    assert x >= 0 by {
      if x < 0 { MulMonotone(x, -1, ny); }
    }
    assert x < nx by {
      if x >= nx { MulMonotone(nx, x, ny); }
    }
  }
}
