/** The 3D single-carrier Gummel driver (main of the Single-charge-carrier program): the
    initial potential ramp and uniform hole density, the halo tensors fullV / fullp that
    the continuity assembler reads, the error metric, one iteration of the inner loop, the
    inner loop itself and the bias sweep around it.

    The Poisson and hole-continuity solves are abstract functions (Solvers): each gives
    the solution vector for the data the driver hands it, and the previous solution as its
    initial guess. */
module GummelSingle {
  import opened GridIndex
  import opened Bernoulli
  import opened Gummel

  // ---------------------------------------------------------------------------
  // The grid

  /** num_cell_x, num_cell_y, num_cell_z: the solution vectors hold one entry per cell,
      (Nx + 1)(Ny + 1)(Nz + 1) = num_cell_x * num_cell_y * num_cell_z in all. */
  datatype Box = Box(nx: int, ny: int, nz: int)

  predicate Ok(b: Box)
  {
    b.nx >= 1 && b.ny >= 1 && b.nz >= 1
  }

  /** num_rows. */
  function Rows(b: Box): int
  {
    b.nx * b.ny * b.nz
  }

  /** The position of cell (i, j, k), 1-based in each axis, in a solution vector: the
      tensor temp_permuted(i - 1, j - 1, k - 1) after the reshape to (z, y, x) and the
      shuffle back reads exactly this entry. */
  function Cell(b: Box, i: int, j: int, k: int): (idx: int)
    requires Ok(b) && 1 <= i <= b.nx && 1 <= j <= b.ny && 1 <= k <= b.nz
    ensures 0 <= idx < Rows(b)
  {
    Index3InRange(b.nx, b.ny, b.nz, i - 1, j - 1, k - 1);
    Index3(b.ny, b.nz, i - 1, j - 1, k - 1)
  }

  /** Distinct cells have distinct positions. */
  lemma CellInjective(b: Box, i: int, j: int, k: int, i': int, j': int, k': int)
    requires Ok(b) && 1 <= i <= b.nx && 1 <= j <= b.ny && 1 <= k <= b.nz
    requires 1 <= i' <= b.nx && 1 <= j' <= b.ny && 1 <= k' <= b.nz
    requires Cell(b, i, j, k) == Cell(b, i', j', k')
    ensures i == i' && j == j' && k == k'
  {
    Index3ThenCoords(b.ny, b.nz, i - 1, j - 1, k - 1);
    Index3ThenCoords(b.ny, b.nz, i' - 1, j' - 1, k' - 1);
  }

  /** The tensor fullV / fullp: num_cell + 1 points per axis. */
  predicate FullShaped(b: Box, full: array3<real>)
  {
    full.Length0 == b.nx + 1 && full.Length1 == b.ny + 1 && full.Length2 == b.nz + 1
  }

  predicate InFull(b: Box, a: int, c: int, d: int)
  {
    0 <= a <= b.nx && 0 <= c <= b.ny && 0 <= d <= b.nz
  }

  // ---------------------------------------------------------------------------
  // Initial conditions

  /** diff = (V_topBC(0, 0) - V_bottomBC(0, 0)) / num_cell_z. */
  function Diff(b: Box, bottom: (int, int) -> real, top00: real): real
    requires Ok(b)
  {
    (top00 - bottom(0, 0)) / b.nz as real
  }

  /** Entry idx of the column V_matrix.shuffle({2, 1, 0}).reshape({num_rows, 1, 1}):
      column-major over (z, y, x). */
  function Reshaped(b: Box, vm: array3<real>, idx: int): real
    reads vm
    requires Ok(b) && vm.Length0 == b.nx && vm.Length1 == b.ny && vm.Length2 == b.nz
    requires 0 <= idx < Rows(b)
  {
    CoordsThenIndex3(b.nx, b.ny, b.nz, idx);
    vm[XOf(b.ny, b.nz, idx), YOf(b.ny, b.nz, idx), ZOf(b.ny, b.nz, idx)]
  }

  /** The V_matrix loops: V_matrix(i - 1, j - 1, k - 1) = V_bottomBC(i, j) + diff * k for
      every cell (i, j, k), 1-based; the loop counters here run 0-based. */
  method RampTensor(b: Box, bottom: (int, int) -> real, diff: real) returns (vm: array3<real>)
    requires Ok(b)
    ensures fresh(vm) && vm.Length0 == b.nx && vm.Length1 == b.ny && vm.Length2 == b.nz
    ensures forall a, c, d :: 0 <= a < b.nx && 0 <= c < b.ny && 0 <= d < b.nz ==>
              vm[a, c, d] == bottom(a + 1, c + 1) + diff * (d + 1) as real
  {
    vm := new real[b.nx, b.ny, b.nz];
    var k := 0;
    while k < b.nz
      invariant 0 <= k <= b.nz
      invariant forall a, c, d :: 0 <= a < b.nx && 0 <= c < b.ny && 0 <= d < k ==>
                  vm[a, c, d] == bottom(a + 1, c + 1) + diff * (d + 1) as real
    {
      var i := 0;
      while i < b.nx
        invariant 0 <= i <= b.nx
        invariant forall a, c, d :: 0 <= a < b.nx && 0 <= c < b.ny && 0 <= d < b.nz && (d < k || (d == k && a < i)) ==>
                    vm[a, c, d] == bottom(a + 1, c + 1) + diff * (d + 1) as real
      {
        var j := 0;
        while j < b.ny
          invariant 0 <= j <= b.ny
          invariant forall a, c, d ::
                      0 <= a < b.nx && 0 <= c < b.ny && 0 <= d < b.nz && (d < k || (d == k && (a < i || (a == i && c < j)))) ==>
                      vm[a, c, d] == bottom(a + 1, c + 1) + diff * (d + 1) as real
        {
          vm[i, j, k] := bottom(i + 1, j + 1) + diff * (k + 1) as real;
          j := j + 1;
        }
        i := i + 1;
      }
      k := k + 1;
    }
  }

  /** The initial potential column: entry idx belongs to cell (XOf + 1, YOf + 1, ZOf + 1)
      and holds that cell's value V_bottomBC(i, j) + diff * k. */
  function Ramp(b: Box, bottom: (int, int) -> real, top00: real): (v: seq<real>)
    requires Ok(b)
    ensures |v| == Rows(b)
  {
    seq(Rows(b), idx requires 0 <= idx < Rows(b) =>
      bottom(XOf(b.ny, b.nz, idx) + 1, YOf(b.ny, b.nz, idx) + 1) + Diff(b, bottom, top00) * (ZOf(b.ny, b.nz, idx) + 1) as real)
  }

  /** Cell (i, j, k) of the ramp holds V_bottomBC(i, j) + diff * k. */
  lemma RampAtCell(b: Box, bottom: (int, int) -> real, top00: real, i: int, j: int, k: int)
    requires Ok(b) && 1 <= i <= b.nx && 1 <= j <= b.ny && 1 <= k <= b.nz
    ensures Ramp(b, bottom, top00)[Cell(b, i, j, k)] == bottom(i, j) + Diff(b, bottom, top00) * k as real
  {
    Index3ThenCoords(b.ny, b.nz, i - 1, j - 1, k - 1);
  }

  /** The initial potential: the ramp tensor, shuffled and reshaped into the solution
      column, is the ramp. */
  method InitialPotential(b: Box, bottom: (int, int) -> real, top00: real) returns (v: seq<real>)
    requires Ok(b)
    ensures v == Ramp(b, bottom, top00)
  {
    var diff := Diff(b, bottom, top00);
    var vm := RampTensor(b, bottom, diff);
    v := seq(Rows(b), idx requires 0 <= idx < Rows(b) reads vm => Reshaped(b, vm, idx));
    forall idx | 0 <= idx < Rows(b)
      ensures v[idx] == Ramp(b, bottom, top00)[idx]
    {
      CoordsThenIndex3(b.nx, b.ny, b.nz, idx);
      var x, y, z := XOf(b.ny, b.nz, idx), YOf(b.ny, b.nz, idx), ZOf(b.ny, b.nz, idx);
      assert v[idx] == vm[x, y, z];
    }
  }

  /** The ramp climbs by diff from one layer to the next, starting from the bottom
      electrode: layer 1 is V_bottomBC(i, j) + diff. */
  lemma RampSteps(b: Box, bottom: (int, int) -> real, top00: real, i: int, j: int, k: int)
    requires Ok(b) && 1 <= i <= b.nx && 1 <= j <= b.ny && 1 <= k <= b.nz
    ensures Ramp(b, bottom, top00)[Cell(b, i, j, k)] - Diff(b, bottom, top00) ==
              if k == 1 then bottom(i, j) else Ramp(b, bottom, top00)[Cell(b, i, j, k - 1)]
  {
    var d := Diff(b, bottom, top00);
    RampAtCell(b, bottom, top00, i, j, k);
    if k > 1 {
      RampAtCell(b, bottom, top00, i, j, k - 1);
      assert d * k as real - d == d * (k - 1) as real;
    }
  }

  /** With a uniform bottom electrode the ramp reaches the top electrode's potential in the
      last layer, k = num_cell_z. */
  lemma RampReachesTop(b: Box, bottom: (int, int) -> real, top00: real, i: int, j: int)
    requires Ok(b) && 1 <= i <= b.nx && 1 <= j <= b.ny && bottom(i, j) == bottom(0, 0)
    ensures Ramp(b, bottom, top00)[Cell(b, i, j, b.nz)] == top00
  {
    RampAtCell(b, bottom, top00, i, j, b.nz);
    var d := Diff(b, bottom, top00);
    assert d * b.nz as real == top00 - bottom(0, 0);
  }

  /** The initial hole density loop: every entry min_dense. */
  method UniformDensity(rows: nat, minDense: real) returns (p: seq<real>)
    ensures |p| == rows && forall i :: 0 <= i < rows ==> p[i] == minDense
  {
    p := [];
    var i := 0;
    while i < rows
      invariant 0 <= i <= rows && |p| == i
      invariant forall m :: 0 <= m < i ==> p[m] == minDense
    {
      p := p + [minDense];
      i := i + 1;
    }
  }

  // ---------------------------------------------------------------------------
  // The halo tensors fullV and fullp

  /** Entry (i, j, k) of fullV (or fullp) after the fill from the solution column v:
      the bottom electrode in layer 0, the solution inside, and copies of the far x face,
      the far y face and the column (num_cell_x, 1) on the near faces and edge. */
  function FullAt(b: Box, v: seq<real>, bottom: (int, int) -> real, i: int, j: int, k: int): real
    requires Ok(b) && |v| == Rows(b) && InFull(b, i, j, k)
  {
    if k == 0 then bottom(i, j)
    else if i >= 1 && j >= 1 then v[Cell(b, i, j, k)]
    else if j >= 1 then v[Cell(b, b.nx, j, k)]
    else if i >= 1 then v[Cell(b, i, b.ny, k)]
    else v[Cell(b, b.nx, 1, k)]
  }

  /** Every layer above the electrode is periodic across x and y: face x = 0 repeats face
      x = num_cell_x, face y = 0 repeats face y = num_cell_y, and the edge (0, 0) repeats
      column (num_cell_x, 1); the inside holds the solution of each cell. */
  lemma HaloIsPeriodic(b: Box, v: seq<real>, bottom: (int, int) -> real, i: int, j: int, k: int)
    requires Ok(b) && |v| == Rows(b) && 1 <= i <= b.nx && 1 <= j <= b.ny && 1 <= k <= b.nz
    ensures FullAt(b, v, bottom, i, j, k) == v[Cell(b, i, j, k)]
    ensures FullAt(b, v, bottom, 0, j, k) == FullAt(b, v, bottom, b.nx, j, k)
    ensures FullAt(b, v, bottom, i, 0, k) == FullAt(b, v, bottom, i, b.ny, k)
    ensures FullAt(b, v, bottom, 0, 0, k) == FullAt(b, v, bottom, b.nx, 1, k)
    ensures FullAt(b, v, bottom, i, j, 0) == bottom(i, j)
  {
  }

  /** The interior loops: fullV(i, j, k) = temp_permuted(i - 1, j - 1, k - 1). */
  method FillInterior(b: Box, v: seq<real>, full: array3<real>)
    requires Ok(b) && |v| == Rows(b) && FullShaped(b, full)
    modifies full
    ensures forall a, c, d :: InFull(b, a, c, d) ==>
              full[a, c, d] == if a >= 1 && c >= 1 && d >= 1 then v[Cell(b, a, c, d)] else old(full[a, c, d])
  {
    var k := 1;
    while k <= b.nz
      invariant 1 <= k <= b.nz + 1
      invariant forall a, c, d :: InFull(b, a, c, d) ==>
                  full[a, c, d] == if a >= 1 && c >= 1 && 1 <= d < k then v[Cell(b, a, c, d)] else old(full[a, c, d])
    {
      var j := 1;
      while j <= b.ny
        invariant 1 <= j <= b.ny + 1
        invariant forall a, c, d :: InFull(b, a, c, d) ==>
                    full[a, c, d] == if a >= 1 && c >= 1 && (1 <= d < k || (d == k && c < j))
                                     then v[Cell(b, a, c, d)] else old(full[a, c, d])
      {
        var i := 1;
        while i <= b.nx
          invariant 1 <= i <= b.nx + 1
          invariant forall a, c, d :: InFull(b, a, c, d) ==>
                      full[a, c, d] == if a >= 1 && c >= 1 && (1 <= d < k || (d == k && (c < j || (c == j && a < i))))
                                       then v[Cell(b, a, c, d)] else old(full[a, c, d])
        {
          full[i, j, k] := v[Cell(b, i, j, k)];
          i := i + 1;
        }
        j := j + 1;
      }
      k := k + 1;
    }
  }

  /** fullV(i, j, 0) = V_bottomBC(i, j) for the whole bottom layer. */
  method FillBottom(b: Box, bottom: (int, int) -> real, full: array3<real>)
    requires Ok(b) && FullShaped(b, full)
    modifies full
    ensures forall a, c, d :: InFull(b, a, c, d) ==>
              full[a, c, d] == if d == 0 then bottom(a, c) else old(full[a, c, d])
  {
    var j := 0;
    while j <= b.ny
      invariant 0 <= j <= b.ny + 1
      invariant forall a, c, d :: InFull(b, a, c, d) ==>
                  full[a, c, d] == if d == 0 && c < j then bottom(a, c) else old(full[a, c, d])
    {
      var i := 0;
      while i <= b.nx
        invariant 0 <= i <= b.nx + 1
        invariant forall a, c, d :: InFull(b, a, c, d) ==>
                    full[a, c, d] == if d == 0 && (c < j || (c == j && a < i)) then bottom(a, c) else old(full[a, c, d])
      {
        full[i, j, 0] := bottom(i, j);
        i := i + 1;
      }
      j := j + 1;
    }
  }

  /** The x boundary: fullV(0, j, k) = temp_permuted(num_cell_x - 1, j - 1, k - 1). */
  method FillXSide(b: Box, v: seq<real>, full: array3<real>)
    requires Ok(b) && |v| == Rows(b) && FullShaped(b, full)
    modifies full
    ensures forall a, c, d :: InFull(b, a, c, d) ==>
              full[a, c, d] == if a == 0 && c >= 1 && d >= 1 then v[Cell(b, b.nx, c, d)] else old(full[a, c, d])
  {
    var k := 1;
    while k <= b.nz
      invariant 1 <= k <= b.nz + 1
      invariant forall a, c, d :: InFull(b, a, c, d) ==>
                  full[a, c, d] == if a == 0 && c >= 1 && 1 <= d < k then v[Cell(b, b.nx, c, d)] else old(full[a, c, d])
    {
      var j := 1;
      while j <= b.ny
        invariant 1 <= j <= b.ny + 1
        invariant forall a, c, d :: InFull(b, a, c, d) ==>
                    full[a, c, d] == if a == 0 && c >= 1 && (1 <= d < k || (d == k && c < j))
                                     then v[Cell(b, b.nx, c, d)] else old(full[a, c, d])
      {
        full[0, j, k] := v[Cell(b, b.nx, j, k)];
        j := j + 1;
      }
      k := k + 1;
    }
  }

  /** The y boundary: fullV(i, 0, k) = temp_permuted(i - 1, num_cell_y - 1, k - 1). */
  method FillYSide(b: Box, v: seq<real>, full: array3<real>)
    requires Ok(b) && |v| == Rows(b) && FullShaped(b, full)
    modifies full
    ensures forall a, c, d :: InFull(b, a, c, d) ==>
              full[a, c, d] == if c == 0 && a >= 1 && d >= 1 then v[Cell(b, a, b.ny, d)] else old(full[a, c, d])
  {
    var k := 1;
    while k <= b.nz
      invariant 1 <= k <= b.nz + 1
      invariant forall a, c, d :: InFull(b, a, c, d) ==>
                  full[a, c, d] == if c == 0 && a >= 1 && 1 <= d < k then v[Cell(b, a, b.ny, d)] else old(full[a, c, d])
    {
      var i := 1;
      while i <= b.nx
        invariant 1 <= i <= b.nx + 1
        invariant forall a, c, d :: InFull(b, a, c, d) ==>
                    full[a, c, d] == if c == 0 && a >= 1 && (1 <= d < k || (d == k && a < i))
                                     then v[Cell(b, a, b.ny, d)] else old(full[a, c, d])
      {
        full[i, 0, k] := v[Cell(b, i, b.ny, k)];
        i := i + 1;
      }
      k := k + 1;
    }
  }

  /** The edge: fullV(0, 0, k) = temp_permuted(num_cell_x - 1, 0, k - 1). */
  method FillEdge(b: Box, v: seq<real>, full: array3<real>)
    requires Ok(b) && |v| == Rows(b) && FullShaped(b, full)
    modifies full
    ensures forall a, c, d :: InFull(b, a, c, d) ==>
              full[a, c, d] == if a == 0 && c == 0 && d >= 1 then v[Cell(b, b.nx, 1, d)] else old(full[a, c, d])
  {
    var k := 1;
    while k <= b.nz
      invariant 1 <= k <= b.nz + 1
      invariant forall a, c, d :: InFull(b, a, c, d) ==>
                  full[a, c, d] == if a == 0 && c == 0 && 1 <= d < k then v[Cell(b, b.nx, 1, d)] else old(full[a, c, d])
    {
      full[0, 0, k] := v[Cell(b, b.nx, 1, k)];
      k := k + 1;
    }
  }

  /** fullV (or fullp) holds the fill from v: every entry is FullAt. */
  ghost predicate Halo(b: Box, full: array3<real>, v: seq<real>, bottom: (int, int) -> real)
    reads full
    requires Ok(b) && |v| == Rows(b) && FullShaped(b, full)
  {
    forall a, c, d :: InFull(b, a, c, d) ==> full[a, c, d] == FullAt(b, v, bottom, a, c, d)
  }

  /** The whole fill of fullV from V (or of fullp from p): every entry is FullAt. */
  method FillFull(b: Box, v: seq<real>, bottom: (int, int) -> real, full: array3<real>)
    requires Ok(b) && |v| == Rows(b) && FullShaped(b, full)
    modifies full
    ensures Halo(b, full, v, bottom)
  {
    FillInterior(b, v, full);
    FillBottom(b, bottom, full);
    FillXSide(b, v, full);
    FillYSide(b, v, full);
    FillEdge(b, v, full);
  }

  // ---------------------------------------------------------------------------
  // The error metric

  /** |newp - oldp| / |oldp| for a cell whose new density is not 0. */
  function Ratio(newp: real, oldp: real): ExtReal
    requires newp != 0.0
  {
    Quotient(Abs(newp - oldp), Abs(oldp))
  }

  /** The cells among 0..upto-1 whose new density is not 0, in cell order: the cells the
      error loop writes a ratio for. */
  function Sources(newp: seq<real>, upto: int): (src: seq<int>)
    requires 0 <= upto <= |newp|
    ensures |src| <= upto
    ensures forall m :: 0 <= m < |src| ==> 0 <= src[m] < upto && newp[src[m]] != 0.0
    ensures forall i :: 0 <= i < upto && newp[i] != 0.0 ==> i in src
  {
    if upto == 0 then []
    else Sources(newp, upto - 1) + (if newp[upto - 1] != 0.0 then [upto - 1] else [])
  }

  /** The front of error_np_vector once the loop has seen cells 0..upto-1: the ratio of
      each qualifying cell, slot after slot. */
  function Compacted(newp: seq<real>, oldp: seq<real>, upto: int): (e: seq<ExtReal>)
    requires |newp| == |oldp| && 0 <= upto <= |newp|
    ensures |e| == |Sources(newp, upto)|
  {
    var src := Sources(newp, upto);
    seq(|src|, m requires 0 <= m < |src| => Ratio(newp[src[m]], oldp[src[m]]))
  }

  /** error_np_vector after the loop: the compacted ratios, then the zeros of the refill. */
  function ErrorVector(newp: seq<real>, oldp: seq<real>): (e: seq<ExtReal>)
    requires |newp| == |oldp|
    ensures |e| == |newp|
  {
    var c := Compacted(newp, oldp, |newp|);
    c + Zeros(|newp| - |c|)
  }

  /** error_np: the maximum of the error vector. */
  function ErrorMetric(newp: seq<real>, oldp: seq<real>): ExtReal
    requires |newp| == |oldp| && |newp| > 0
  {
    MaxElement(ErrorVector(newp, oldp))
  }

  /** The error is the largest ratio over the cells whose new density is not 0, and 0
      when no cell qualifies: it bounds every ratio, and it is either 0 or one of them. */
  lemma ErrorIsLargestRatio(newp: seq<real>, oldp: seq<real>)
    requires |newp| == |oldp| && |newp| > 0
    ensures forall i :: 0 <= i < |newp| && newp[i] != 0.0 ==> !Below(ErrorMetric(newp, oldp), Ratio(newp[i], oldp[i]))
    ensures ErrorMetric(newp, oldp) == Finite(0.0) ||
              exists i :: 0 <= i < |newp| && newp[i] != 0.0 && ErrorMetric(newp, oldp) == Ratio(newp[i], oldp[i])
    ensures !Below(ErrorMetric(newp, oldp), Finite(0.0))
  {
    var e := ErrorVector(newp, oldp);
    var src := Sources(newp, |newp|);
    var c := Compacted(newp, oldp, |newp|);
    MaxElementIsMaximum(e);
    forall i | 0 <= i < |newp| && newp[i] != 0.0
      ensures !Below(MaxElement(e), Ratio(newp[i], oldp[i]))
    {
      var m :| 0 <= m < |src| && src[m] == i;
      assert e[m] == c[m];
    }
    var at :| 0 <= at < |e| && MaxElement(e) == e[at];
    if at < |c| {
      assert e[at] == c[at] == Ratio(newp[src[at]], oldp[src[at]]);
    }
    forall m | 0 <= m < |e|
      ensures !Below(e[m], Finite(0.0))
    {
      if m < |c| {
        assert e[m] == c[m];
      }
    }
    MaxElementNonNegative(e);
  }

  /** The error is 0 exactly when every cell whose new density is not 0 kept its old
      density. */
  lemma ErrorZeroIffUnchanged(newp: seq<real>, oldp: seq<real>)
    requires |newp| == |oldp| && |newp| > 0
    ensures ErrorMetric(newp, oldp) == Finite(0.0) <==>
              forall i :: 0 <= i < |newp| && newp[i] != 0.0 ==> newp[i] == oldp[i]
  {
    ErrorIsLargestRatio(newp, oldp);
    if ErrorMetric(newp, oldp) == Finite(0.0) {
      forall i | 0 <= i < |newp| && newp[i] != 0.0
        ensures newp[i] == oldp[i]
      {
        var q := Ratio(newp[i], oldp[i]);
        assert !Below(Finite(0.0), q);
      }
    } else if forall i :: 0 <= i < |newp| && newp[i] != 0.0 ==> newp[i] == oldp[i] {
      var i :| 0 <= i < |newp| && newp[i] != 0.0 && ErrorMetric(newp, oldp) == Ratio(newp[i], oldp[i]);
      assert Abs(newp[i] - oldp[i]) == 0.0;
    }
  }

  /** The error loop, on error_np_vector: refill with zeros, write the ratio of each
      qualifying cell at the next free slot, take the largest entry. */
  method ErrorSingle(newp: seq<real>, oldp: seq<real>) returns (e: ExtReal)
    requires |newp| == |oldp| && |newp| > 0
    ensures e == ErrorMetric(newp, oldp)
  {
    var rows := |newp|;
    var errVec := new ExtReal[rows](_ => Finite(0.0));
    var count := 0;
    var i := 0;
    while i < rows
      invariant 0 <= i <= rows && count <= i
      invariant errVec[..count] == Compacted(newp, oldp, i)
      invariant forall m :: count <= m < rows ==> errVec[m] == Finite(0.0)
    {
      count := ErrorCell(newp, oldp, errVec, i, count);
      i := i + 1;
    }
    ErrorVectorOfFront(newp, oldp, errVec[..], count);
    e := MaxElement(errVec[..]);
  }

  /** One pass of the error loop: cell i, if it qualifies, writes its ratio at the next
      free slot. */
  method ErrorCell(newp: seq<real>, oldp: seq<real>, errVec: array<ExtReal>, i: int, count: int)
    returns (count': int)
    requires |newp| == |oldp| == errVec.Length && 0 <= count <= i < |newp|
    requires errVec[..count] == Compacted(newp, oldp, i)
    requires forall m :: count <= m < errVec.Length ==> errVec[m] == Finite(0.0)
    modifies errVec
    ensures count <= count' <= i + 1
    ensures errVec[..count'] == Compacted(newp, oldp, i + 1)
    ensures forall m :: count' <= m < errVec.Length ==> errVec[m] == Finite(0.0)
  {
    CompactedStep(newp, oldp, i);
    count' := count;
    if newp[i] != 0.0 {
      errVec[count] := Ratio(newp[i], oldp[i]);
      count' := count + 1;
    }
  }

  /** A vector holding the compacted ratios of all cells at its front and zeros behind is
      the error vector. */
  lemma ErrorVectorOfFront(newp: seq<real>, oldp: seq<real>, full: seq<ExtReal>, count: int)
    requires |newp| == |oldp| == |full| && 0 <= count <= |full|
    requires full[..count] == Compacted(newp, oldp, |newp|)
    requires forall m :: count <= m < |full| ==> full[m] == Finite(0.0)
    ensures full == ErrorVector(newp, oldp)
  {
    assert full == full[..count] + full[count..];
    assert full[count..] == Zeros(|full| - count);
  }

  /** One more cell seen by the error loop appends its ratio when it qualifies. */
  lemma CompactedStep(newp: seq<real>, oldp: seq<real>, i: int)
    requires |newp| == |oldp| && 0 <= i < |newp|
    ensures Compacted(newp, oldp, i + 1) ==
              Compacted(newp, oldp, i) + if newp[i] != 0.0 then [Ratio(newp[i], oldp[i])] else []
  {
  }

  // ---------------------------------------------------------------------------
  // One iteration of the inner loop

  /** What the driver obtains from the objects it drives: the Poisson solve for a bias,
      hole density and initial guess; the hole-continuity solve for a bias, potential,
      generation rate, hole density and initial guess (the continuity equation reads the
      potential through fullV, which the bias and the potential determine); the electrode
      values V_bottomBC / V_topBC at a bias and p_bottomBC / p_topBC. */
  datatype Solvers = Solvers(poisson: (real, seq<real>, seq<real>) -> seq<real>,
                             hole: (real, seq<real>, seq<real>, seq<real>, seq<real>) -> seq<real>,
                             vBottom: real -> (int, int) -> real, vTop: real -> (int, int) -> real,
                             pBottom: (int, int) -> real, pTop: (int, int) -> real)

  /** The only fact assumed of the solvers: given vectors of num_rows entries they answer
      with num_rows entries. */
  ghost predicate SolversShaped(sol: Solvers, rows: int)
  {
    (forall va, p, g :: |p| == rows && |g| == rows ==> |sol.poisson(va, p, g)| == rows) &&
    (forall va, v, up, p, g :: |v| == rows && |up| == rows && |p| == rows && |g| == rows ==>
       |sol.hole(va, v, up, p, g)| == rows)
  }

  /** not_cnv_cnt may pass 1000 before the knobs are adapted. */
  const StallLimit := 1000

  /** The variables the inner loop carries from one iteration to the next: V, p, soln_V and
      soln_p (the initial guesses), error_np, not_cnv_cnt, iter and the knobs of params. */
  datatype Iterate = Iterate(v: seq<real>, p: seq<real>, solnV: seq<real>, solnP: seq<real>,
                             err: ExtReal, stall: int, iter: nat, knobs: Knobs)

  predicate Sized(st: Iterate, rows: int)
  {
    |st.v| == rows && |st.p| == rows && |st.solnV| == rows && |st.solnP| == rows
  }

  /** Up: the generation rate, 0 in every cell. */
  function NoGeneration(rows: nat): (up: seq<real>)
    ensures |up| == rows && forall i :: 0 <= i < rows ==> up[i] == 0.0
  {
    seq(rows, _ => 0.0)
  }

  /** newp after the clamping loop. */
  function ClampAll(s: seq<real>): (c: seq<real>)
    ensures |c| == |s| && forall i :: 0 <= i < |s| ==> c[i] == Clamped(s[i])
  {
    seq(|s|, i requires 0 <= i < |s| => Clamped(s[i]))
  }

  /** One pass of the body of "while (error_np > params.tolerance)": solve Poisson from the
      current p with soln_V as guess; take the solution as V on the first iteration and
      mix it with the old V afterwards; solve for p with soln_p as guess; clamp; measure
      the change; bump the stall counter and adapt w and the tolerance past the limit; mix
      the clamped solution with the old p under the knobs as they now are. */
  function Next(pol: Policy, sol: Solvers, b: Box, va: real, st: Iterate): (st': Iterate)
    requires Ok(b) && Sized(st, Rows(b)) && SolversShaped(sol, Rows(b)) && MixKeepsSize(pol, Rows(b))
    ensures Sized(st', Rows(b)) && st'.iter == st.iter + 1
  {
    var rows := Rows(b);
    var solnV := sol.poisson(va, st.p, st.solnV);
    var v := if st.iter > 0 then pol.mix(st.knobs, solnV, st.v) else solnV;
    var solnP := sol.hole(va, v, NoGeneration(rows), st.p, st.solnP);
    var newp := ClampAll(solnP);
    var err := ErrorMetric(newp, st.p);
    var knobs := if Stalls(StallLimit, st.stall, err, st.err) then Adapt(pol, st.knobs) else st.knobs;
    Iterate(v, pol.mix(knobs, newp, st.p), solnV, solnP, err,
            StallCount(StallLimit, st.stall, err, st.err), st.iter + 1, knobs)
  }

  /** An iteration takes the Poisson solution as V on the first iteration and mixes it
      with the old V after; solves for p on that V with no generation; keeps not_cnv_cnt
      within 0..1000 and adapts the knobs exactly when it stalls; measures a change that is
      never negative and is 0 exactly when the clamped hole solution equals the old p
      wherever it is not 0; and mixes the clamped solution with the old p under the knobs
      as they are after the adaptation. */
  lemma NextProperties(pol: Policy, sol: Solvers, b: Box, va: real, st: Iterate)
    requires Ok(b) && Sized(st, Rows(b)) && SolversShaped(sol, Rows(b)) && MixKeepsSize(pol, Rows(b))
    requires 0 <= st.stall <= StallLimit
    ensures var solnV := sol.poisson(va, st.p, st.solnV);
            && Next(pol, sol, b, va, st).solnV == solnV
            && Next(pol, sol, b, va, st).v == if st.iter == 0 then solnV else pol.mix(st.knobs, solnV, st.v)
    ensures Next(pol, sol, b, va, st).solnP ==
              sol.hole(va, Next(pol, sol, b, va, st).v, NoGeneration(Rows(b)), st.p, st.solnP)
    ensures Next(pol, sol, b, va, st).p ==
              pol.mix(Next(pol, sol, b, va, st).knobs, ClampAll(Next(pol, sol, b, va, st).solnP), st.p)
    ensures 0 <= Next(pol, sol, b, va, st).stall <= StallLimit
    ensures Next(pol, sol, b, va, st).knobs ==
              if Stalls(StallLimit, st.stall, Next(pol, sol, b, va, st).err, st.err) then Adapt(pol, st.knobs) else st.knobs
    ensures Stalls(StallLimit, st.stall, Next(pol, sol, b, va, st).err, st.err) <==>
              !Below(Next(pol, sol, b, va, st).err, st.err) && st.stall == StallLimit
    ensures !Below(Next(pol, sol, b, va, st).err, Finite(0.0))
    ensures Next(pol, sol, b, va, st).err == Finite(0.0) <==>
              var newp := ClampAll(Next(pol, sol, b, va, st).solnP);
              forall i :: 0 <= i < Rows(b) && newp[i] != 0.0 ==> newp[i] == st.p[i]
  {
    var st' := Next(pol, sol, b, va, st);
    var newp := ClampAll(st'.solnP);
    assert st'.err == ErrorMetric(newp, st.p);
    Index3InRange(b.nx, b.ny, b.nz, 0, 0, 0);
    StallCountStep(StallLimit, st.stall, st'.err, st.err);
    ErrorIsLargestRatio(newp, st.p);
    ErrorZeroIffUnchanged(newp, st.p);
  }

  /** The body of the inner loop on the driver's own buffers: newp is clamped in place, the
      error vector is filled, and the tensors fullV and fullp are rebuilt from the new V and
      p. */
  method Step(pol: Policy, sol: Solvers, b: Box, va: real, st: Iterate, fullV: array3<real>, fullp: array3<real>)
    returns (st': Iterate)
    requires Ok(b) && Sized(st, Rows(b)) && SolversShaped(sol, Rows(b)) && MixKeepsSize(pol, Rows(b))
    requires FullShaped(b, fullV) && FullShaped(b, fullp) && fullV != fullp
    modifies fullV, fullp
    ensures st' == Next(pol, sol, b, va, st)
    ensures Halo(b, fullV, st'.v, sol.vBottom(va)) && Halo(b, fullp, st'.p, sol.pBottom)
  {
    var rows := Rows(b);
    Index3InRange(b.nx, b.ny, b.nz, 0, 0, 0);
    var solnV := sol.poisson(va, st.p, st.solnV);
    var v;
    if st.iter > 0 {
      v := pol.mix(st.knobs, solnV, st.v);
    } else {
      v := solnV;
    }
    FillFull(b, v, sol.vBottom(va), fullV);
    var up := NoGeneration(rows);
    var solnP := sol.hole(va, v, up, st.p, st.solnP);
    var newp := new real[rows](i requires 0 <= i < rows => solnP[i]);
    ClampRange(newp, 0, rows);
    assert newp[..] == ClampAll(solnP);
    var err := ErrorSingle(newp[..], st.p);
    var stall := st.stall;
    var knobs := st.knobs;
    if !Below(err, st.err) {
      stall := stall + 1;
    }
    if stall > StallLimit {
      knobs := pol.reduceW(knobs);
      knobs := pol.relaxTolerance(knobs);
      stall := 0;
    }
    var p := pol.mix(knobs, newp[..], st.p);
    FillFull(b, p, sol.pBottom, fullp);
    st' := Iterate(v, p, solnV, solnP, err, stall, st.iter + 1, knobs);
  }

  // ---------------------------------------------------------------------------
  // The inner loop and the bias sweep

  /** The inner loop from st, given at most fuel more iterations: it stops as soon as
      error_np is no longer above the tolerance. */
  function RunFrom(pol: Policy, sol: Solvers, b: Box, va: real, st: Iterate, fuel: nat): (fin: Iterate)
    requires Ok(b) && Sized(st, Rows(b)) && SolversShaped(sol, Rows(b)) && MixKeepsSize(pol, Rows(b))
    ensures Sized(fin, Rows(b))
    decreases fuel
  {
    if !Exceeds(st.err, st.knobs.tolerance) || fuel == 0 then st
    else RunFrom(pol, sol, b, va, Next(pol, sol, b, va, st), fuel - 1)
  }

  /** The loop runs no more than fuel iterations and ends either converged (error_np not
      above the tolerance as it then stands) or with its fuel spent; not_cnv_cnt stays
      within 0..1000 throughout. */
  lemma {:induction false} RunEnds(pol: Policy, sol: Solvers, b: Box, va: real, st: Iterate, fuel: nat)
    requires Ok(b) && Sized(st, Rows(b)) && SolversShaped(sol, Rows(b)) && MixKeepsSize(pol, Rows(b))
    requires 0 <= st.stall <= StallLimit
    ensures st.iter <= RunFrom(pol, sol, b, va, st, fuel).iter <= st.iter + fuel
    ensures RunFrom(pol, sol, b, va, st, fuel).iter < st.iter + fuel ==>
              !Exceeds(RunFrom(pol, sol, b, va, st, fuel).err, RunFrom(pol, sol, b, va, st, fuel).knobs.tolerance)
    ensures 0 <= RunFrom(pol, sol, b, va, st, fuel).stall <= StallLimit
    decreases fuel
  {
    if Exceeds(st.err, st.knobs.tolerance) && fuel > 0 {
      NextProperties(pol, sol, b, va, st);
      RunEnds(pol, sol, b, va, Next(pol, sol, b, va, st), fuel - 1);
    }
  }

  /** The inner while loop, bounded by fuel; fullV and fullp are the tensors of the last
      iteration, if any ran. */
  method RunBias(pol: Policy, sol: Solvers, b: Box, va: real, start: Iterate, fuel: nat,
                 fullV: array3<real>, fullp: array3<real>) returns (fin: Iterate)
    requires Ok(b) && Sized(start, Rows(b)) && SolversShaped(sol, Rows(b)) && MixKeepsSize(pol, Rows(b))
    requires FullShaped(b, fullV) && FullShaped(b, fullp) && fullV != fullp
    modifies fullV, fullp
    ensures fin == RunFrom(pol, sol, b, va, start, fuel)
    ensures fin.iter > start.iter ==> Halo(b, fullV, fin.v, sol.vBottom(va)) && Halo(b, fullp, fin.p, sol.pBottom)
  {
    fin := start;
    var left: nat := fuel;
    while Exceeds(fin.err, fin.knobs.tolerance) && left > 0
      invariant Sized(fin, Rows(b)) && left <= fuel && fin.iter == start.iter + (fuel - left)
      invariant RunFrom(pol, sol, b, va, fin, left) == RunFrom(pol, sol, b, va, start, fuel)
      invariant fin.iter > start.iter ==> Halo(b, fullV, fin.v, sol.vBottom(va)) && Halo(b, fullp, fin.p, sol.pBottom)
      decreases left
    {
      fin := Step(pol, sol, b, va, fin, fullV, fullp);
      left := left - 1;
    }
  }

  /** The bias range of params: Va_min, Va_max and increment. */
  datatype Sweep = Sweep(vaMin: real, vaMax: real, increment: real)

  /** What one bias of the sweep leaves: its Va and the loop's final variables. */
  datatype BiasRun = BiasRun(va: real, fin: Iterate)

  /** The variables with which the inner loop starts at Va_cnt: V, p and the guesses carried
      over from the previous bias, error_np = 1, iter = 0, not_cnv_cnt = 0, and at
      Va_cnt = 1 the initial tolerance and w restored. */
  function BiasStart(pol: Policy, vaCnt: int, prev: Iterate): Iterate
  {
    var knobs := if vaCnt == 1 then pol.useWI(pol.useToleranceI(prev.knobs)) else prev.knobs;
    Iterate(prev.v, prev.p, prev.solnV, prev.solnP, Finite(1.0), 0, 0, knobs)
  }

  /** The biases Va_cnt = from..numV, each starting where the previous one finished; run m
      is at Va_cnt = from + m. */
  function Biases(pol: Policy, sol: Solvers, b: Box, sw: Sweep, from: int, numV: int, prev: Iterate, fuel: nat): (runs: seq<BiasRun>)
    requires Ok(b) && Sized(prev, Rows(b)) && SolversShaped(sol, Rows(b)) && MixKeepsSize(pol, Rows(b))
    ensures |runs| == if from <= numV then numV - from + 1 else 0
    ensures forall m :: 0 <= m < |runs| ==> Sized(runs[m].fin, Rows(b))
    ensures forall m :: 0 <= m < |runs| ==> runs[m].va == Bias(sw.vaMin, sw.increment, from + m)
    decreases numV - from
  {
    if from > numV then []
    else
      var va := Bias(sw.vaMin, sw.increment, from);
      var fin := RunFrom(pol, sol, b, va, BiasStart(pol, from, prev), fuel);
      [BiasRun(va, fin)] + Biases(pol, sol, b, sw, from + 1, numV, fin, fuel)
  }

  /** Run m of the sweep starts from where run m - 1 (or, for the first, prev) finished. */
  lemma {:induction false} BiasesChain(pol: Policy, sol: Solvers, b: Box, sw: Sweep, from: int, numV: int,
                                       prev: Iterate, fuel: nat, m: int)
    requires Ok(b) && Sized(prev, Rows(b)) && SolversShaped(sol, Rows(b)) && MixKeepsSize(pol, Rows(b))
    requires 0 <= m < |Biases(pol, sol, b, sw, from, numV, prev, fuel)|
    ensures var runs := Biases(pol, sol, b, sw, from, numV, prev, fuel);
            var before := if m == 0 then prev else runs[m - 1].fin;
            runs[m].fin == RunFrom(pol, sol, b, runs[m].va, BiasStart(pol, from + m, before), fuel)
    decreases m
  {
    if m > 0 {
      var va := Bias(sw.vaMin, sw.increment, from);
      var fin := RunFrom(pol, sol, b, va, BiasStart(pol, from, prev), fuel);
      BiasesChain(pol, sol, b, sw, from + 1, numV, fin, fuel, m - 1);
      if m > 1 {
        assert Biases(pol, sol, b, sw, from, numV, prev, fuel)[m - 1] == Biases(pol, sol, b, sw, from + 1, numV, fin, fuel)[m - 2];
      }
    }
  }

  /** The whole sweep: num_V biases Va_min, Va_min + increment, ..., all within
      [Va_min, Va_max]; each run starts from where the previous one finished. */
  lemma SweepSchedule(pol: Policy, sol: Solvers, b: Box, sw: Sweep, prev: Iterate, fuel: nat, m: int)
    requires Ok(b) && Sized(prev, Rows(b)) && SolversShaped(sol, Rows(b)) && MixKeepsSize(pol, Rows(b))
    requires sw.increment > 0.0
    requires 0 <= m < |Biases(pol, sol, b, sw, 1, BiasCount(sw.vaMin, sw.vaMax, sw.increment), prev, fuel)|
    ensures var runs := Biases(pol, sol, b, sw, 1, BiasCount(sw.vaMin, sw.vaMax, sw.increment), prev, fuel);
            |runs| == BiasCount(sw.vaMin, sw.vaMax, sw.increment) &&
            runs[m].va == sw.vaMin + sw.increment * m as real && sw.vaMin <= runs[m].va <= sw.vaMax
  {
    BiasesChain(pol, sol, b, sw, 1, BiasCount(sw.vaMin, sw.vaMax, sw.increment), prev, fuel, m);
    BiasesInRange(sw.vaMin, sw.vaMax, sw.increment, m + 1);
  }

  /** The state before the sweep: the ramp potential at Va_min, p = min_dense everywhere,
      both also the first guesses, and tolerance_eq = tolerance_i. */
  function Initial(sol: Solvers, b: Box, sw: Sweep, knobs: Knobs, toleranceI: real): (st: Iterate)
    requires Ok(b)
    ensures Sized(st, Rows(b))
  {
    Index3InRange(b.nx, b.ny, b.nz, 0, 0, 0);
    var v := Ramp(b, sol.vBottom(sw.vaMin), sol.vTop(sw.vaMin)(0, 0));
    var p := seq(Rows(b), _ => MinDense(sol.pBottom(1, 1), sol.pTop(1, 1)));
    Iterate(v, p, v, p, Finite(1.0), 0, 0, Knobs(knobs.w, knobs.tolerance, toleranceI))
  }

  /** One pass of the sweep loop: the inner loop at Va = Va_min + increment * (Va_cnt - 1). */
  method RunAt(pol: Policy, sol: Solvers, b: Box, sw: Sweep, vaCnt: int, numV: int, prev: Iterate, fuel: nat,
               fullV: array3<real>, fullp: array3<real>) returns (run: BiasRun)
    requires Ok(b) && Sized(prev, Rows(b)) && SolversShaped(sol, Rows(b)) && MixKeepsSize(pol, Rows(b))
    requires FullShaped(b, fullV) && FullShaped(b, fullp) && fullV != fullp && vaCnt <= numV
    modifies fullV, fullp
    ensures Sized(run.fin, Rows(b))
    ensures Biases(pol, sol, b, sw, vaCnt, numV, prev, fuel) == [run] + Biases(pol, sol, b, sw, vaCnt + 1, numV, run.fin, fuel)
  {
    var va := Bias(sw.vaMin, sw.increment, vaCnt);
    var fin := RunBias(pol, sol, b, va, BiasStart(pol, vaCnt, prev), fuel, fullV, fullp);
    run := BiasRun(va, fin);
  }

  /** The sweep loop "for (Va_cnt = 1; Va_cnt <= num_V; Va_cnt++)" from the initial state
      init, on the driver's tensors. */
  method SweepLoop(pol: Policy, sol: Solvers, b: Box, sw: Sweep, numV: int, init: Iterate, fuel: nat,
                   fullV: array3<real>, fullp: array3<real>) returns (runs: seq<BiasRun>)
    requires Ok(b) && Sized(init, Rows(b)) && SolversShaped(sol, Rows(b)) && MixKeepsSize(pol, Rows(b))
    requires FullShaped(b, fullV) && FullShaped(b, fullp) && fullV != fullp
    modifies fullV, fullp
    ensures runs == Biases(pol, sol, b, sw, 1, numV, init, fuel)
  {
    ghost var all := Biases(pol, sol, b, sw, 1, numV, init, fuel);
    runs := [];
    var prev := init;
    var vaCnt := 1;
    while vaCnt <= numV
      invariant vaCnt >= 1 && (vaCnt <= numV + 1 || vaCnt == 1) && Sized(prev, Rows(b))
      invariant runs + Biases(pol, sol, b, sw, vaCnt, numV, prev, fuel) == all
      decreases numV - vaCnt
    {
      var run := RunAt(pol, sol, b, sw, vaCnt, numV, prev, fuel, fullV, fullp);
      AppendRun(runs, run, Biases(pol, sol, b, sw, vaCnt, numV, prev, fuel),
                Biases(pol, sol, b, sw, vaCnt + 1, numV, run.fin, fuel));
      runs := runs + [run];
      prev := run.fin;
      vaCnt := vaCnt + 1;
    }
  }

  /** main: the initial conditions, then for Va_cnt = 1..num_V the inner loop at
      Va = Va_min + increment * (Va_cnt - 1). */
  method Drive(pol: Policy, sol: Solvers, b: Box, sw: Sweep, knobs: Knobs, toleranceI: real, fuel: nat)
    returns (runs: seq<BiasRun>)
    requires Ok(b) && SolversShaped(sol, Rows(b)) && MixKeepsSize(pol, Rows(b)) && sw.increment > 0.0
    ensures runs == Biases(pol, sol, b, sw, 1, BiasCount(sw.vaMin, sw.vaMax, sw.increment), Initial(sol, b, sw, knobs, toleranceI), fuel)
  {
    Index3InRange(b.nx, b.ny, b.nz, 0, 0, 0);
    var numV := ((sw.vaMax - sw.vaMin) / sw.increment).Floor + 1;
    var v := InitialPotential(b, sol.vBottom(sw.vaMin), sol.vTop(sw.vaMin)(0, 0));
    var p := UniformDensity(Rows(b), MinDense(sol.pBottom(1, 1), sol.pTop(1, 1)));
    var init := Iterate(v, p, v, p, Finite(1.0), 0, 0, Knobs(knobs.w, knobs.tolerance, toleranceI));
    assert init == Initial(sol, b, sw, knobs, toleranceI);
    var fullV := new real[b.nx + 1, b.ny + 1, b.nz + 1];
    var fullp := new real[b.nx + 1, b.ny + 1, b.nz + 1];
    runs := SweepLoop(pol, sol, b, sw, numV, init, fuel, fullV, fullp);
  }
}
