/** The 2D electron continuity assembler (class Continuity_n): one call of SetupEqn turns
    the potential, the generation rate and the current electron density into the
    five-band sparse system A n = b of the Scharfetter-Gummel discretisation.

    The object keeps the band vectors, the right-hand side, the Bernoulli weight
    matrices and the boundary densities as members that each call overwrites; the triplet
    buffer handed to the sparse-matrix builder is a fixed array written in place through
    the fill counter trpCnt. */
module Continuity {
  import opened GridIndex
  import opened Bernoulli
  import opened Sparse
  import opened Stencil
  import opened DensityGrid

  /** The members of Parameters the constructor reads. */
  datatype Params = Params(numCell: int, numElements: int, nDos: real, mobil: real, dx: real,
                           nMobActive: real, nLumo: real, eGap: real, phiA: real, phiC: real)

  /** J_coeff = q Vt N_dos mobil / dx, the scale of the face currents. */
  function CurrentCoefficient(q: real, vt: real, p: Params): real
    requires p.dx > 0.0
  {
    q * vt * p.nDos * p.mobil / p.dx
  }

  /** Cn = dx^2 / (Vt N_dos mobil), the scale of the generation term in the rhs. */
  function GenerationCoefficient(vt: real, p: Params): real
    requires vt > 0.0 && p.nDos > 0.0 && p.mobil > 0.0
  {
    p.dx * p.dx / (vt * p.nDos * p.mobil)
  }

  /** n_mob = n_mob_active / mobil at every grid point. */
  function RelativeMobility(p: Params): real
    requires p.mobil > 0.0
  {
    p.nMobActive / p.mobil
  }

  /** The electron density held at the bottom contact (the anode side):
      N_LUMO exp(-(E_gap - phi_a) / Vt) / N_dos. */
  function BottomDensity(p: Params, vt: real, exp: real -> real): real
    requires vt > 0.0 && p.nDos > 0.0
  {
    p.nLumo * exp(-(p.eGap - p.phiA) / vt) / p.nDos
  }

  /** The electron density held at the top contact (the cathode side):
      N_LUMO exp(-phi_c / Vt) / N_dos. */
  function TopDensity(p: Params, vt: real, exp: real -> real): real
    requires vt > 0.0 && p.nDos > 0.0
  {
    p.nLumo * exp(-p.phiC / vt) / p.nDos
  }

  /** The potential step across the face between (a - di, b - dj) and (a, b). */
  function Step(v: Matrix, a: int, b: int, di: int, dj: int): real
    requires 0 <= di <= a < |v| && 0 <= dj <= b < |v[a]| && b - dj < |v[a - di]|
  {
    v[a][b] - v[a - di][b - dj]
  }

  /** Row and column 0 of a weight matrix hold 0. */
  predicate RimZero(m: Matrix)
  {
    forall a, b :: 0 <= a < |m| && 0 <= b < |m[a]| && (a == 0 || b == 0) ==> m[a][b] == 0.0
  }

  /** Two square matrices with the same entries are equal. */
  lemma SameMatrix(m1: Matrix, m2: Matrix, size: int)
    requires Square(m1, size) && Square(m2, size)
    requires forall a, b :: 0 <= a < size && 0 <= b < size ==> m1[a][b] == m2[a][b]
    ensures m1 == m2
  {
    forall a | 0 <= a < size
      ensures m1[a] == m2[a]
    {
      assert forall b :: 0 <= b < size ==> m1[a][b] == m2[a][b];
    }
  }

  /** Two weight pairs with zero rims that agree on every face off row and column 0 are
      the same pair of matrices. */
  lemma SameWeightPair(pos1: Matrix, neg1: Matrix, pos2: Matrix, neg2: Matrix, size: int)
    requires Square(pos1, size) && Square(neg1, size) && Square(pos2, size) && Square(neg2, size)
    requires RimZero(pos1) && RimZero(neg1) && RimZero(pos2) && RimZero(neg2)
    requires forall a, b :: 1 <= a < size && 1 <= b < size ==>
               Weights(pos1[a][b], neg1[a][b]) == Weights(pos2[a][b], neg2[a][b])
    ensures pos1 == pos2 && neg1 == neg2
  {
    SameMatrix(pos1, pos2, size);
    SameMatrix(neg1, neg2, size);
  }

  /** Two x-face weight pairs with zero rims that both follow the potential v are equal. */
  lemma SameXWeights(pos1: Matrix, neg1: Matrix, pos2: Matrix, neg2: Matrix, v: Matrix, exp: real -> real, numCell: int)
    requires ExpLike(exp) && numCell >= 1 && Square(v, numCell + 1)
    requires Square(pos1, numCell + 1) && Square(neg1, numCell + 1) && Square(pos2, numCell + 1) && Square(neg2, numCell + 1)
    requires RimZero(pos1) && RimZero(neg1) && RimZero(pos2) && RimZero(neg2)
    requires forall a, b :: 1 <= a <= numCell && 1 <= b <= numCell ==>
               Weights(pos1[a][b], neg1[a][b]) == FaceWeights(v[a][b] - v[a - 1][b], exp)
    requires forall a, b :: 1 <= a <= numCell && 1 <= b <= numCell ==>
               Weights(pos2[a][b], neg2[a][b]) == FaceWeights(v[a][b] - v[a - 1][b], exp)
    ensures pos1 == pos2 && neg1 == neg2
  {
    forall a, b | 1 <= a < numCell + 1 && 1 <= b < numCell + 1
      ensures Weights(pos1[a][b], neg1[a][b]) == Weights(pos2[a][b], neg2[a][b])
    {
      assert Weights(pos1[a][b], neg1[a][b]) == FaceWeights(v[a][b] - v[a - 1][b], exp);
    }
    SameWeightPair(pos1, neg1, pos2, neg2, numCell + 1);
  }

  /** Two z-face weight pairs with zero rims that both follow the potential v are equal. */
  lemma SameZWeights(pos1: Matrix, neg1: Matrix, pos2: Matrix, neg2: Matrix, v: Matrix, exp: real -> real, numCell: int)
    requires ExpLike(exp) && numCell >= 1 && Square(v, numCell + 1)
    requires Square(pos1, numCell + 1) && Square(neg1, numCell + 1) && Square(pos2, numCell + 1) && Square(neg2, numCell + 1)
    requires RimZero(pos1) && RimZero(neg1) && RimZero(pos2) && RimZero(neg2)
    requires forall a, b :: 1 <= a <= numCell && 1 <= b <= numCell ==>
               Weights(pos1[a][b], neg1[a][b]) == FaceWeights(v[a][b] - v[a][b - 1], exp)
    requires forall a, b :: 1 <= a <= numCell && 1 <= b <= numCell ==>
               Weights(pos2[a][b], neg2[a][b]) == FaceWeights(v[a][b] - v[a][b - 1], exp)
    ensures pos1 == pos2 && neg1 == neg2
  {
    forall a, b | 1 <= a < numCell + 1 && 1 <= b < numCell + 1
      ensures Weights(pos1[a][b], neg1[a][b]) == Weights(pos2[a][b], neg2[a][b])
    {
      assert Weights(pos1[a][b], neg1[a][b]) == FaceWeights(v[a][b] - v[a][b - 1], exp);
    }
    SameWeightPair(pos1, neg1, pos2, neg2, numCell + 1);
  }

  /** Two side boundary vectors with zero corners that agree on 1..N are equal. */
  lemma SameSide(s1: seq<real>, s2: seq<real>, n: int)
    requires |s1| == n + 2 && |s2| == n + 2 && n >= 0
    requires s1[0] == s2[0] == 0.0 && s1[n + 1] == s2[n + 1] == 0.0
    requires forall j :: 1 <= j <= n ==> s1[j] == s2[j]
    ensures s1 == s2
  {
  }

  /** The members one setup_eqn call writes, taken together as a value. */
  datatype System = System(weights: Faces, left: seq<real>, right: seq<real>,
                           farLower: seq<real>, lower: seq<real>, main: seq<real>,
                           upper: seq<real>, farUpper: seq<real>, trpCnt: int,
                           sp: seq<Triplet>, buffer: seq<Triplet>, rhs: seq<real>, vecRhs: seq<real>)

  /** The system setup_eqn assembles on the grid of N x N unknowns with mobility mob,
      generation scale cn and electrode densities bottom / top, from the potential v, the
      generation un and the solution nv: weights that follow v with zero rims, side
      boundaries that follow nv with zero corners, the five bands of those weights, their
      layout in the buffer and in the sparse matrix, and the set_rhs right-hand side. */
  ghost predicate SystemFrom(s: System, n: int, mob: Matrix, exp: real -> real, cn: real,
                             bottom: seq<real>, top: seq<real>, v: Matrix, un: Matrix, nv: seq<real>)
  {
    && SystemShape(s, n, mob, exp, bottom, top, v, un, nv)
    && WeightsFollow(s.weights, n, exp, v)
    && SidesFollow(s.left, s.right, n, nv)
    && s.farLower == FarLowerBand(n, mob, s.weights) && s.lower == LowerBand(n, mob, s.weights)
    && s.main == MainBand(n, mob, s.weights)
    && s.upper == UpperBand(n, mob, s.weights) && s.farUpper == FarUpperBand(n, mob, s.weights)
    && s.trpCnt == TripletCount(n)
    && s.sp == Layout(n, s.farLower, s.lower, s.main, s.upper, s.farUpper) && s.buffer == s.sp
    && RhsFollows(s, n, mob, cn, bottom, top, un)
  }

  /** The sizes SystemFrom relies on. */
  ghost predicate SystemShape(s: System, n: int, mob: Matrix, exp: real -> real,
                              bottom: seq<real>, top: seq<real>, v: Matrix, un: Matrix, nv: seq<real>)
  {
    && n >= 1 && ExpLike(exp) && Grid(n, mob, s.weights)
    && Square(v, n + 2) && Square(un, n + 2) && |nv| > n * n && |bottom| == n + 2 && |top| == n + 2
    && |s.left| == n + 2 && |s.right| == n + 2 && |s.rhs| == n * n + 1
  }

  /** Weights that follow v through FaceWeights, with zero rims. */
  ghost predicate WeightsFollow(f: Faces, n: int, exp: real -> real, v: Matrix)
    requires n >= 1 && ExpLike(exp) && Square(v, n + 2)
    requires Square(f.posX, n + 2) && Square(f.negX, n + 2) && Square(f.posZ, n + 2) && Square(f.negZ, n + 2)
  {
    && RimZero(f.posX) && RimZero(f.negX) && RimZero(f.posZ) && RimZero(f.negZ)
    && (forall a, b :: 1 <= a <= n + 1 && 1 <= b <= n + 1 ==>
          Weights(f.posX[a][b], f.negX[a][b]) == FaceWeights(v[a][b] - v[a - 1][b], exp))
    && (forall a, b :: 1 <= a <= n + 1 && 1 <= b <= n + 1 ==>
          Weights(f.posZ[a][b], f.negZ[a][b]) == FaceWeights(v[a][b] - v[a][b - 1], exp))
  }

  /** Side boundaries that follow the first and last columns of nv, with zero corners. */
  ghost predicate SidesFollow(left: seq<real>, right: seq<real>, n: int, nv: seq<real>)
    requires n >= 1 && |nv| > n * n && |left| == n + 2 && |right| == n + 2
  {
    && left[0] == 0.0 && left[n + 1] == 0.0 && right[0] == 0.0 && right[n + 1] == 0.0
    && (forall j :: 1 <= j <= n ==> left[j] == CellDensity(n, nv, 1, j) && right[j] == CellDensity(n, nv, n, j))
  }

  /** The set_rhs right-hand side of the system's weights and sides, and its copy. */
  ghost predicate RhsFollows(s: System, n: int, mob: Matrix, cn: real,
                             bottom: seq<real>, top: seq<real>, un: Matrix)
    requires RhsShape(n, un, mob, s.weights, s.left, s.right, bottom, top) && |s.rhs| == n * n + 1
  {
    && s.rhs[0] == 0.0
    && (forall k :: 1 <= k <= n * n ==>
          s.rhs[k] == RhsAt(n, cn, un, mob, s.weights, s.left, s.right, bottom, top, k))
    && s.vecRhs == s.rhs[1..]
  }

  /** The inputs determine the system: two systems assembled from the same inputs are
      the same value. */
  lemma SystemUnique(s1: System, s2: System, n: int, mob: Matrix, exp: real -> real, cn: real,
                     bottom: seq<real>, top: seq<real>, v: Matrix, un: Matrix, nv: seq<real>)
    requires SystemFrom(s1, n, mob, exp, cn, bottom, top, v, un, nv)
    requires SystemFrom(s2, n, mob, exp, cn, bottom, top, v, un, nv)
    ensures s1 == s2
  {
    SameXWeights(s1.weights.posX, s1.weights.negX, s2.weights.posX, s2.weights.negX, v, exp, n + 1);
    SameZWeights(s1.weights.posZ, s1.weights.negZ, s2.weights.posZ, s2.weights.negZ, v, exp, n + 1);
    assert s1.weights == s2.weights;
    SameSide(s1.left, s2.left, n);
    SameSide(s1.right, s2.right, n);
    assert s1.rhs == s2.rhs by {
      forall k | 0 <= k < |s1.rhs|
        ensures s1.rhs[k] == s2.rhs[k]
      {
      }
    }
  }

  /** The loop of set_main_diag: for every unknown k = 1..n*n, with (i, j) its cell,
      band[k] := the cell's diagonal entry and the triplet (k - 1, k - 1, band[k]) goes to
      slot start + k - 1 of the buffer. */
  method MainDiagLoop(n: int, mob: Matrix, f: Faces, band0: seq<real>, tl: array<Triplet>, start: int)
    returns (band: seq<real>)
    requires Grid(n, mob, f) && |band0| == n * n + 1 && band0[0] == 0.0
    requires 0 <= start && start + n * n <= tl.Length
    modifies tl
    ensures band == MainBand(n, mob, f)
    ensures tl[..] == Overwrite(old(tl[..]), start, Band(n * n, 0, 0, band))
  {
    band := band0;
    var cnt := start;
    var i, j := 1, 1;
    var index := 1;
    while index <= n * n
      invariant 1 <= index <= n * n + 1 && cnt == start + index - 1
      invariant i == ColOf(n, index) && j == RowOf(n, index)
      invariant |band| == n * n + 1 && band[0] == 0.0
      invariant forall k :: 1 <= k < index ==> band[k] == MainAt(n, mob, f, k)
      invariant forall m :: start <= m < cnt ==> tl[m] == BandSlot(0, 0, band, m - start)
      invariant forall m :: 0 <= m < tl.Length && !(start <= m < cnt) ==> tl[m] == old(tl[m])
    {
      CoordsInGrid(n, index);
      NextCell(n, index);
      var d := MainCell(n, mob, f, i, j);
      band := band[index := d];
      tl[cnt] := Triplet(index - 1, index - 1, band[index]);
      cnt := cnt + 1;
      i := i + 1;
      if i > n {
        i := 1;
        j := j + 1;
      }
      index := index + 1;
    }
    assert band == MainBand(n, mob, f);
    SlotsOverwrite(old(tl[..]), tl[..], start, n * n, 0, 0, band);
  }

  /** The loop of set_far_lower_diag: for every position k = 1..n*(n-1), with (i, j) the
      cell of unknown k + n (the counters start at (1, 2)), band[k] := its coupling to the
      cell below and the triplet (k - 1 + n, k - 1, band[k]) goes to slot start + k - 1. */
  method FarLowerDiagLoop(n: int, mob: Matrix, f: Faces, band0: seq<real>, tl: array<Triplet>, start: int)
    returns (band: seq<real>)
    requires Grid(n, mob, f) && |band0| == n * n - n + 1 && band0[0] == 0.0
    requires 0 <= start && start + (n * n - n) <= tl.Length
    modifies tl
    ensures band == FarLowerBand(n, mob, f)
    ensures tl[..] == Overwrite(old(tl[..]), start, Band(n * n - n, n, 0, band))
  {
    band := band0;
    var cnt := start;
    var i, j := 1, 2;
    var index := 1;
    while index <= n * n - n
      invariant 1 <= index <= n * n - n + 1 && cnt == start + index - 1
      invariant i == ColOf(n, index) && j == RowOf(n, index) + 1
      invariant |band| == n * n - n + 1 && band[0] == 0.0
      invariant forall k :: 1 <= k < index ==> band[k] == FarLowerAt(n, mob, f, k)
      invariant forall m :: start <= m < cnt ==> tl[m] == BandSlot(n, 0, band, m - start)
      invariant forall m :: 0 <= m < tl.Length && !(start <= m < cnt) ==> tl[m] == old(tl[m])
    {
      CoordsInLowerRows(n, index);
      NextCell(n, index);
      var d := FarLowerCell(n, mob, f, i, j);
      band := band[index := d];
      tl[cnt] := Triplet(index - 1 + n, index - 1, band[index]);
      cnt := cnt + 1;
      i := i + 1;
      if i > n {
        i := 1;
        j := j + 1;
      }
      index := index + 1;
    }
    assert band == FarLowerBand(n, mob, f);
    SlotsOverwrite(old(tl[..]), tl[..], start, n * n - n, n, 0, band);
  }

  /** The guarded store of set_lower_diag at position index, whose counters (i, j) hold the
      cell of unknown index + 1: band[index] := that cell's coupling to its left neighbour
      when i > 1; otherwise the cell opens an x-row and band[index] keeps its 0. */
  method LowerEntry(n: int, mob: Matrix, f: Faces, band: seq<real>, index: int, i: int, j: int)
    returns (band': seq<real>)
    requires Grid(n, mob, f) && 1 <= index < n * n && ZeroWhereSkipped(n, band)
    requires i == ColOf(n, index + 1) && j == RowOf(n, index + 1)
    ensures ZeroWhereSkipped(n, band')
    ensures forall k :: 0 <= k < n * n && k != index ==> band'[k] == band[k]
    ensures band' == band[index := band'[index]]
    ensures !Skipped(n, index) ==> band'[index] == LowerAt(n, mob, f, index)
  {
    CoordsInGrid(n, index);
    CoordsInGrid(n, index + 1);
    NextCell(n, index);
    if i > 1 {
      var d := LowerCell(n, mob, f, i, j);
      assert !Skipped(n, index) && d == LowerAt(n, mob, f, index);
      band' := band[index := d];
    } else {
      assert Skipped(n, index);
      band' := band;
    }
  }

  /** The guarded store of set_upper_diag at position index, whose counter i holds the x
      coordinate of unknown index, wrapped to 0 where the cell closes its x-row:
      band[index] := the coupling of cell (i, j) to its right neighbour when i > 0. */
  method UpperEntry(n: int, mob: Matrix, f: Faces, band: seq<real>, index: int, i: int, j: int)
    returns (band': seq<real>)
    requires Grid(n, mob, f) && 1 <= index < n * n && ZeroWhereSkipped(n, band)
    requires ColOf(n, index) < n ==> i == ColOf(n, index) && j == RowOf(n, index)
    requires ColOf(n, index) == n ==> i == 0
    ensures ZeroWhereSkipped(n, band')
    ensures forall k :: 0 <= k < n * n && k != index ==> band'[k] == band[k]
    ensures band' == band[index := band'[index]]
    ensures !Skipped(n, index) ==> band'[index] == UpperAt(n, mob, f, index)
  {
    CoordsInGrid(n, index);
    if i > 0 {
      var d := UpperCell(n, mob, f, i, j);
      band' := band[index := d];
    } else {
      band' := band;
    }
  }

  /** The loop of set_lower_diag: for every position k = 1..n*n-1, with (i, j) the cell of
      unknown k + 1 (the counters start at (2, 1)), band[k] := that cell's coupling to its
      left neighbour when i > 1, and the triplet (k, k - 1, band[k]) goes to slot
      start + k - 1. Where i = 1 (the cell opens an x-row) band[k] keeps its 0. */
  method LowerDiagLoop(n: int, mob: Matrix, f: Faces, band0: seq<real>, tl: array<Triplet>, start: int)
    returns (band: seq<real>)
    requires Grid(n, mob, f) && ZeroWhereSkipped(n, band0)
    requires 0 <= start && start + (n * n - 1) <= tl.Length
    modifies tl
    ensures band == LowerBand(n, mob, f)
    ensures tl[..] == Overwrite(old(tl[..]), start, Band(n * n - 1, 1, 0, band))
  {
    band := band0;
    var cnt := start;
    var i, j := 2, 1;
    var index := 1;
    OffDiagonalCount(n);
    NextCell(n, 1);
    while index <= n * n - 1
      invariant 1 <= index <= n * n && cnt == start + index - 1
      invariant index < n * n ==> i == ColOf(n, index + 1) && j == RowOf(n, index + 1)
      invariant ZeroWhereSkipped(n, band)
      invariant forall k :: 1 <= k < index && !Skipped(n, k) ==> band[k] == LowerAt(n, mob, f, k)
      invariant forall m :: start <= m < cnt ==> tl[m] == BandSlot(1, 0, band, m - start)
      invariant forall m :: 0 <= m < tl.Length && !(start <= m < cnt) ==> tl[m] == old(tl[m])
    {
      band := LowerEntry(n, mob, f, band, index, i, j);
      CoordsInGrid(n, index + 1);
      NextCell(n, index + 1);
      tl[cnt] := Triplet(index, index - 1, band[index]);
      cnt := cnt + 1;
      i := i + 1;
      if i > n {
        i := 1;
        j := j + 1;
      }
      index := index + 1;
    }
    assert band == LowerBand(n, mob, f);
    SlotsOverwrite(old(tl[..]), tl[..], start, n * n - 1, 1, 0, band);
  }

  /** The loop of set_upper_diag: for every position k = 1..n*n-1, with i the x coordinate
      of cell k wrapped to 0 where the cell closes its x-row, band[k] := the coupling of
      cell (i, j) to its right neighbour when i > 0, and the triplet (k - 1, k, band[k])
      goes to slot start + k - 1. Where i = 0 band[k] keeps its 0. */
  method UpperDiagLoop(n: int, mob: Matrix, f: Faces, band0: seq<real>, tl: array<Triplet>, start: int)
    returns (band: seq<real>)
    requires Grid(n, mob, f) && ZeroWhereSkipped(n, band0)
    requires 0 <= start && start + (n * n - 1) <= tl.Length
    modifies tl
    ensures band == UpperBand(n, mob, f)
    ensures tl[..] == Overwrite(old(tl[..]), start, Band(n * n - 1, 0, 1, band))
  {
    band := band0;
    var cnt := start;
    var i, j := 1, 1;
    var index := 1;
    OffDiagonalCount(n);
    while index <= n * n - 1
      invariant 1 <= index <= n * n && cnt == start + index - 1
      invariant index < n * n && ColOf(n, index) < n ==> i == ColOf(n, index) && j == RowOf(n, index)
      invariant index < n * n && ColOf(n, index) == n ==> i == 0 && j == RowOf(n, index) + 1
      invariant ZeroWhereSkipped(n, band)
      invariant forall k :: 1 <= k < index && !Skipped(n, k) ==> band[k] == UpperAt(n, mob, f, k)
      invariant forall m :: start <= m < cnt ==> tl[m] == BandSlot(0, 1, band, m - start)
      invariant forall m :: 0 <= m < tl.Length && !(start <= m < cnt) ==> tl[m] == old(tl[m])
    {
      band := UpperEntry(n, mob, f, band, index, i, j);
      CoordsInGrid(n, index);
      NextCell(n, index);
      tl[cnt] := Triplet(index - 1, index, band[index]);
      cnt := cnt + 1;
      i := i + 1;
      if i > n - 1 {
        i := 0;
        j := j + 1;
      }
      index := index + 1;
    }
    assert band == UpperBand(n, mob, f);
    SlotsOverwrite(old(tl[..]), tl[..], start, n * n - 1, 0, 1, band);
  }

  /** The loop of set_far_upper_diag: for every position k = 1..n*(n-1), with (i, j) the
      cell of unknown k, band[k] := its coupling to the cell above and the triplet
      (k - 1, k - 1 + n, band[k]) goes to slot start + k - 1. */
  method FarUpperDiagLoop(n: int, mob: Matrix, f: Faces, band0: seq<real>, tl: array<Triplet>, start: int)
    returns (band: seq<real>)
    requires Grid(n, mob, f) && |band0| == n * n - n + 1 && band0[0] == 0.0
    requires 0 <= start && start + (n * n - n) <= tl.Length
    modifies tl
    ensures band == FarUpperBand(n, mob, f)
    ensures tl[..] == Overwrite(old(tl[..]), start, Band(n * n - n, 0, n, band))
  {
    band := band0;
    var cnt := start;
    var i, j := 1, 1;
    var index := 1;
    while index <= n * n - n
      invariant 1 <= index <= n * n - n + 1 && cnt == start + index - 1
      invariant i == ColOf(n, index) && j == RowOf(n, index)
      invariant |band| == n * n - n + 1 && band[0] == 0.0
      invariant forall k :: 1 <= k < index ==> band[k] == FarUpperAt(n, mob, f, k)
      invariant forall m :: start <= m < cnt ==> tl[m] == BandSlot(0, n, band, m - start)
      invariant forall m :: 0 <= m < tl.Length && !(start <= m < cnt) ==> tl[m] == old(tl[m])
    {
      CoordsInLowerRows(n, index);
      NextCell(n, index);
      var d := FarUpperCell(n, mob, f, i, j);
      band := band[index := d];
      tl[cnt] := Triplet(index - 1, index - 1 + n, band[index]);
      cnt := cnt + 1;
      i := i + 1;
      if i > n {
        i := 1;
        j := j + 1;
      }
      index := index + 1;
    }
    assert band == FarUpperBand(n, mob, f);
    SlotsOverwrite(old(tl[..]), tl[..], start, n * n - n, 0, n, band);
  }

  /** The loops of set_rhs: the unknowns are visited x-row by x-row (j outer, i inner),
      with the running index the unknown of cell (i, j), and rhs[index] := RhsCell(i, j). */
  method RhsLoop(n: int, cn: real, un: Matrix, mob: Matrix, f: Faces, left: seq<real>, right: seq<real>,
                 bottom: seq<real>, top: seq<real>, rhs0: seq<real>) returns (rhs: seq<real>)
    requires RhsShape(n, un, mob, f, left, right, bottom, top) && |rhs0| == n * n + 1
    ensures |rhs| == n * n + 1 && rhs[0] == rhs0[0]
    ensures forall k :: 1 <= k <= n * n ==> rhs[k] == RhsAt(n, cn, un, mob, f, left, right, bottom, top, k)
  {
    rhs := rhs0;
    var index := 0;
    var j := 1;
    while j <= n
      invariant 1 <= j <= n + 1 && index + 1 == Flat(n, 1, j)
      invariant |rhs| == n * n + 1 && rhs[0] == rhs0[0]
      invariant forall k :: 1 <= k <= index && k <= n * n ==> rhs[k] == RhsAt(n, cn, un, mob, f, left, right, bottom, top, k)
    {
      var i := 1;
      while i <= n
        invariant 1 <= i <= n + 1 && index + 1 == Flat(n, i, j)
        invariant |rhs| == n * n + 1 && rhs[0] == rhs0[0]
        invariant forall k :: 1 <= k <= index && k <= n * n ==> rhs[k] == RhsAt(n, cn, un, mob, f, left, right, bottom, top, k)
      {
        index := index + 1;
        FlatInGrid(n, i, j);
        FlatThenCoords(n, i, j);
        var r := RhsCell(n, cn, un, mob, f, left, right, bottom, top, i, j);
        rhs := rhs[index := r];
        FlatShift(n, i, 1, j);
        i := i + 1;
      }
      FlatShift(n, 1, n, j);
      j := j + 1;
    }
    FlatClosed(n, 1, n + 1);
  }

  /** The copy into the solver's vector: entry i - 1 := rhs[i] for i = 1..|rhs| - 1. */
  method SolverRhs(rhs: seq<real>, v0: seq<real>) returns (v: seq<real>)
    requires |rhs| >= 1 && |v0| == |rhs| - 1
    ensures v == rhs[1..]
  {
    v := v0;
    var i := 1;
    while i <= |rhs| - 1
      invariant 1 <= i <= |rhs| && |v| == |rhs| - 1
      invariant forall m :: 0 <= m < i - 1 ==> v[m] == rhs[m + 1]
    {
      v := v[i - 1 := rhs[i]];
      i := i + 1;
    }
  }

  /** The first loop of to_matrix: for every unknown k, with i = k mod n (0 read as n)
      and j = 1 + (k - 1) / n, n_matrix(i, j) := n[k]. The ghost (ci, cj) is the cell
      of k; the cells before it in the visiting order are done. */
  method FillInterior(n: int, nv: seq<real>, m0: Matrix) returns (m: Matrix)
    requires n >= 1 && |nv| > n * n && Square(m0, n + 2)
    ensures Square(m, n + 2)
    ensures forall a, b :: 1 <= a <= n && 1 <= b <= n ==> m[a][b] == CellDensity(n, nv, a, b)
    ensures forall a, b :: 0 <= a < n + 2 && 0 <= b < n + 2 && (a == 0 || a == n + 1 || b == 0 || b == n + 1) ==>
              m[a][b] == m0[a][b]
  {
    m := m0;
    var index := 1;
    ghost var ci, cj := 1, 1;
    while index <= n * n
      invariant 1 <= index <= n * n + 1
      invariant ci == ColOf(n, index) && cj == RowOf(n, index)
      invariant Square(m, n + 2)
      invariant forall a, b :: 1 <= a <= n && 1 <= b <= n && (b < cj || (b == cj && a < ci)) ==>
                  m[a][b] == CellDensity(n, nv, a, b)
      invariant forall a, b :: 0 <= a < n + 2 && 0 <= b < n + 2 && (a == 0 || a == n + 1 || b == 0 || b == n + 1) ==>
                  m[a][b] == m0[a][b]
    {
      var i := index % n;
      if i == 0 {
        i := n;
      }
      var j := 1 + (index - 1) / n;
      WrappedColumn(n, index);
      CoordsDivMod(n, index);
      CoordsInGrid(n, index);
      CoordsThenFlat(n, index);
      m := Put(m, i, j, nv[index]);
      NextCell(n, index);
      if ci == n {
        ci, cj := 1, cj + 1;
      } else {
        ci := ci + 1;
      }
      index := index + 1;
    }
    FlatClosed(n, 1, n + 1);
    FlatThenCoords(n, 1, n + 1);
  }

  /** The second loop of to_matrix: the left and right boundary densities along the
      first and last x-column, rows 1..n. */
  method FillSides(n: int, left: seq<real>, right: seq<real>, m0: Matrix) returns (m: Matrix)
    requires n >= 1 && |left| == n + 2 && |right| == n + 2 && Square(m0, n + 2)
    ensures Square(m, n + 2)
    ensures forall b :: 1 <= b <= n ==> m[0][b] == left[b] && m[n + 1][b] == right[b]
    ensures forall a, b :: 0 <= a < n + 2 && 0 <= b < n + 2 && !((a == 0 || a == n + 1) && 1 <= b <= n) ==>
              m[a][b] == m0[a][b]
  {
    m := m0;
    var j := 1;
    while j <= n
      invariant 1 <= j <= n + 1 && Square(m, n + 2)
      invariant forall b :: 1 <= b < j ==> m[0][b] == left[b] && m[n + 1][b] == right[b]
      invariant forall a, b :: 0 <= a < n + 2 && 0 <= b < n + 2 && !((a == 0 || a == n + 1) && 1 <= b < j) ==>
                  m[a][b] == m0[a][b]
    {
      m := Put(m, 0, j, left[j]);
      m := Put(m, n + 1, j, right[j]);
      j := j + 1;
    }
  }

  /** The third loop of to_matrix: the bottom and top boundary densities along the
      first and last z-row, all the way across (corners included). */
  method FillBottomTop(n: int, bottom: seq<real>, top: seq<real>, m0: Matrix) returns (m: Matrix)
    requires n >= 1 && |bottom| == n + 2 && |top| == n + 2 && Square(m0, n + 2)
    ensures Square(m, n + 2)
    ensures forall a :: 0 <= a < n + 2 ==> m[a][0] == bottom[a] && m[a][n + 1] == top[a]
    ensures forall a, b :: 0 <= a < n + 2 && 1 <= b <= n ==> m[a][b] == m0[a][b]
  {
    m := m0;
    var i := 0;
    while i <= n + 1
      invariant 0 <= i <= n + 2 && Square(m, n + 2)
      invariant forall a :: 0 <= a < i ==> m[a][0] == bottom[a] && m[a][n + 1] == top[a]
      invariant forall a, b :: 0 <= a < n + 2 && 0 <= b < n + 2 && !(a < i && (b == 0 || b == n + 1)) ==>
                  m[a][b] == m0[a][b]
    {
      m := Put(m, i, 0, bottom[i]);
      m := Put(m, i, n + 1, top[i]);
      i := i + 1;
    }
  }

  /** to_matrix: the three loops in order; every entry of the grid is then HaloAt. */
  method RebuildGrid(n: int, nv: seq<real>, left: seq<real>, right: seq<real>, bottom: seq<real>,
                     top: seq<real>, m0: Matrix) returns (m: Matrix)
    requires n >= 1 && |nv| > n * n && Boundaries(n, left, right, bottom, top) && Square(m0, n + 2)
    ensures Square(m, n + 2)
    ensures forall a, b :: 0 <= a < n + 2 && 0 <= b < n + 2 ==> m[a][b] == HaloAt(n, nv, left, right, bottom, top, a, b)
  {
    var m1 := FillInterior(n, nv, m0);
    var m2 := FillSides(n, left, right, m1);
    m := FillBottomTop(n, bottom, top, m2);
  }

  /** The loops of calculate_currents: Jn_Z(i, j) and Jn_X(i, j) for 1 <= i, j <= n;
      the other entries keep their values. */
  method CurrentsLoop(n: int, jc: real, mob: Matrix, nm: Matrix, f: Faces, jx0: Matrix, jz0: Matrix)
    returns (jx: Matrix, jz: Matrix)
    requires CurrentShape(n, mob, nm, f) && Square(jx0, n + 2) && Square(jz0, n + 2)
    ensures Square(jx, n + 2) && Square(jz, n + 2)
    ensures forall a, b :: 1 <= a <= n && 1 <= b <= n ==>
              jz[a][b] == CurrentZ(n, jc, mob, nm, f, a, b) && jx[a][b] == CurrentX(n, jc, mob, nm, f, a, b)
    ensures forall a, b :: 0 <= a < n + 2 && 0 <= b < n + 2 && (a == 0 || a == n + 1 || b == 0 || b == n + 1) ==>
              jz[a][b] == jz0[a][b] && jx[a][b] == jx0[a][b]
  {
    jx, jz := jx0, jz0;
    var i := 1;
    while i < n + 1
      invariant 1 <= i <= n + 1 && Square(jx, n + 2) && Square(jz, n + 2)
      invariant forall a, b :: 1 <= a < i && 1 <= b <= n ==>
                  jz[a][b] == CurrentZ(n, jc, mob, nm, f, a, b) && jx[a][b] == CurrentX(n, jc, mob, nm, f, a, b)
      invariant forall a, b :: 0 <= a < n + 2 && 0 <= b < n + 2 && (a == 0 || a == n + 1 || b == 0 || b == n + 1) ==>
                  jz[a][b] == jz0[a][b] && jx[a][b] == jx0[a][b]
    {
      var j := 1;
      while j < n + 1
        invariant 1 <= j <= n + 1 && Square(jx, n + 2) && Square(jz, n + 2)
        invariant forall a, b :: 1 <= a < i && 1 <= b <= n ==>
                    jz[a][b] == CurrentZ(n, jc, mob, nm, f, a, b) && jx[a][b] == CurrentX(n, jc, mob, nm, f, a, b)
        invariant forall b :: 1 <= b < j ==>
                    jz[i][b] == CurrentZ(n, jc, mob, nm, f, i, b) && jx[i][b] == CurrentX(n, jc, mob, nm, f, i, b)
        invariant forall a, b :: 0 <= a < n + 2 && 0 <= b < n + 2 && (a == 0 || a == n + 1 || b == 0 || b == n + 1) ==>
                    jz[a][b] == jz0[a][b] && jx[a][b] == jx0[a][b]
      {
        var z := CurrentZ(n, jc, mob, nm, f, i, j);
        var x := CurrentX(n, jc, mob, nm, f, i, j);
        jz := Put(jz, i, j, z);
        jx := Put(jx, i, j, x);
        j := j + 1;
      }
      i := i + 1;
    }
  }

  /** The five band loops of setup_eqn, one after the other from slot 0 of the triplet
      buffer: the bands are the ones the stencil defines, and the buffer is their layout,
      with the tail past the last band still blank. */
  method AssembleBands(n: int, mob: Matrix, f: Faces, farLower0: seq<real>, lower0: seq<real>,
                       main0: seq<real>, upper0: seq<real>, farUpper0: seq<real>, tl: array<Triplet>)
    returns (farLower: seq<real>, lower: seq<real>, main: seq<real>, upper: seq<real>, farUpper: seq<real>)
    requires Grid(n, mob, f)
    requires |farLower0| == n * n - n + 1 && farLower0[0] == 0.0 && ZeroWhereSkipped(n, lower0)
    requires |main0| == n * n + 1 && main0[0] == 0.0
    requires ZeroWhereSkipped(n, upper0) && |farUpper0| == n * n - n + 1 && farUpper0[0] == 0.0
    requires tl.Length == 5 * (n * n)
    requires forall m :: RunStart(n, 5) <= m < tl.Length ==> tl[m] == Blank
    modifies tl
    ensures farLower == FarLowerBand(n, mob, f) && lower == LowerBand(n, mob, f) && main == MainBand(n, mob, f)
    ensures upper == UpperBand(n, mob, f) && farUpper == FarUpperBand(n, mob, f)
    ensures tl[..] == Layout(n, farLower, lower, main, upper, farUpper)
  {
    RunsOrdered(n);
    ghost var ts := tl[..];
    farLower := FarLowerDiagLoop(n, mob, f, farLower0, tl, RunStart(n, 0));
    lower := LowerDiagLoop(n, mob, f, lower0, tl, RunStart(n, 1));
    main := MainDiagLoop(n, mob, f, main0, tl, RunStart(n, 2));
    upper := UpperDiagLoop(n, mob, f, upper0, tl, RunStart(n, 3));
    farUpper := FarUpperDiagLoop(n, mob, f, farUpper0, tl, RunStart(n, 4));
    OverwritesAreLayout(n, farLower, lower, main, upper, farUpper, ts);
  }

  /** The matrix that setFromTriplets builds from the layout of the five stencil bands is
      the five-point stencil: every entry is the coupling NeighbourMatrix states. */
  lemma LayoutIsStencil(n: int, mob: Matrix, f: Faces)
    requires Grid(n, mob, f)
    ensures forall r, c :: 0 <= r < n * n && 0 <= c < n * n ==>
              Entry(Layout(n, FarLowerBand(n, mob, f), LowerBand(n, mob, f), MainBand(n, mob, f),
                           UpperBand(n, mob, f), FarUpperBand(n, mob, f)), r, c)
              == NeighbourMatrix(n, mob, f, r, c)
  {
    var fl, lo, ma, up, fu := FarLowerBand(n, mob, f), LowerBand(n, mob, f), MainBand(n, mob, f),
                              UpperBand(n, mob, f), FarUpperBand(n, mob, f);
    forall r, c | 0 <= r < n * n && 0 <= c < n * n
      ensures Entry(Layout(n, fl, lo, ma, up, fu), r, c) == NeighbourMatrix(n, mob, f, r, c)
    {
      LayoutConsolidates(n, fl, lo, ma, up, fu, r, c);
      BandsAreNeighbourMatrix(n, mob, f, r, c);
    }
  }

  class ContinuityN {
    const numCell: int
    /** N = num_cell - 1 interior cells per axis. */
    const n: int
    const numElements: int
    const exp: real -> real
    const jCoeff: real
    const cn: real
    /** Relative electron mobility on the grid (uniform). */
    const nMob: Matrix
    /** The static bottom and top boundary densities, filled once by the constructor. */
    var bottomBC: seq<real>
    var topBC: seq<real>
    var leftBC: seq<real>
    var rightBC: seq<real>

    var farLowerDiag: seq<real>
    var lowerDiag: seq<real>
    var mainDiag: seq<real>
    var upperDiag: seq<real>
    var farUpperDiag: seq<real>
    var rhs: seq<real>
    /** The right-hand side as the solver takes it, 0-based. */
    var vecRhs: seq<real>

    var bPosX: Matrix
    var bNegX: Matrix
    var bPosZ: Matrix
    var bNegZ: Matrix

    var nMatrix: Matrix
    var jnX: Matrix
    var jnZ: Matrix

    /** The triplet buffer, 5 * num_elements long, and its fill counter. */
    const tripletList: array<Triplet>
    var trpCnt: int
    /** The triplets last handed to setFromTriplets; the sparse matrix is
        Entry(spTriplets, r, c). */
    var spTriplets: seq<Triplet>

    function Faces(): Faces
      reads this`bPosX, this`bNegX, this`bPosZ, this`bNegZ
    {
      Stencil.Faces(bPosX, bNegX, bPosZ, bNegZ)
    }

    /** The grid dimensions. */
    ghost predicate Dims()
    {
      n >= 1 && numCell == n + 1 && numElements == n * n
    }

    /** Mobility and weight matrices on the (num_cell + 1)-point grid. */
    ghost predicate WeightsShaped()
      reads this`bPosX, this`bNegX, this`bPosZ, this`bNegZ
    {
      n >= 1 && Grid(n, nMob, Faces())
    }

    /** The band vectors, with the entries no assembly writes held at 0: index 0 of
        every band, and the lower / upper couplings at multiples of N (the Skipped
        positions), which would otherwise join the last cell of one x-row to the first
        cell of the next. */
    ghost predicate BandsShaped()
      reads this`farLowerDiag, this`lowerDiag, this`mainDiag, this`upperDiag, this`farUpperDiag
    {
      && n >= 1 && numElements == n * n
      && |farLowerDiag| == numElements - n + 1 && farLowerDiag[0] == 0.0
      && ZeroWhereSkipped(n, lowerDiag) && ZeroWhereSkipped(n, upperDiag)
      && |mainDiag| == numElements + 1 && mainDiag[0] == 0.0
      && |farUpperDiag| == numElements - n + 1 && farUpperDiag[0] == 0.0
    }

    ghost predicate BoundaryShaped()
      reads this`bottomBC, this`topBC, this`leftBC, this`rightBC
    {
      |bottomBC| == n + 2 && |topBC| == n + 2 && |leftBC| == n + 2 && |rightBC| == n + 2
    }

    ghost predicate RhsShaped()
      reads this`rhs, this`vecRhs
    {
      numElements >= 0 && |rhs| == numElements + 1 && rhs[0] == 0.0 && |vecRhs| == numElements
    }

    ghost predicate HaloShaped()
      reads this`nMatrix, this`jnX, this`jnZ
    {
      Square(nMatrix, n + 2) && Square(jnX, n + 2) && Square(jnZ, n + 2)
    }

    /** The triplet buffer holds 5 * num_elements slots, and every slot past the
        TripletCount(N) an assembly fills is still the value-initialised (0, 0, 0.0). */
    ghost predicate BufferShaped()
      reads this`trpCnt, tripletList
    {
      && n >= 1 && tripletList.Length == 5 * numElements && 0 <= trpCnt
      && forall m :: TripletCount(n) <= m < tripletList.Length ==> tripletList[m] == Blank
    }

    /** Row and column 0 of the weights and the corners of the side boundary vectors,
        which no member writes, hold the 0 the constructor leaves there: the constructor
        establishes it and every member that writes those vectors keeps it. */
    ghost predicate RimsZero()
      reads this`bPosX, this`bNegX, this`bPosZ, this`bNegZ, this`leftBC, this`rightBC
    {
      && RimZero(bPosX) && RimZero(bNegX) && RimZero(bPosZ) && RimZero(bNegZ)
      && |leftBC| >= 1 && leftBC[0] == 0.0 && leftBC[|leftBC| - 1] == 0.0
      && |rightBC| >= 1 && rightBC[0] == 0.0 && rightBC[|rightBC| - 1] == 0.0
    }

    ghost predicate Valid()
      reads this, tripletList
    {
      && Dims() && WeightsShaped() && BandsShaped() && BoundaryShaped()
      && RhsShaped() && HaloShaped() && BufferShaped()
    }

    /** The constructor: sizes, coefficients, mobility and electrode densities. The
        std::vector members are zero-filled by resize, as here. The Eigen members Bn_*,
        Jn_* and VecXd_rhs are only resized in the source, which leaves their entries
        unset; the model zero-fills them. Nothing depends on those values: every entry any
        member reads is written first (the weights by Bernoulli_n_X/Z, the currents by
        calculate_currents, the solver vector by set_rhs), and row and column 0 of the
        weights are never read. */
    constructor (p: Params, q: real, vt: real, exp: real -> real)
      requires p.numCell >= 2 && p.numElements == (p.numCell - 1) * (p.numCell - 1)
      requires vt > 0.0 && p.nDos > 0.0 && p.mobil > 0.0 && p.dx > 0.0
      ensures Valid() && RimsZero() && fresh(tripletList)
      ensures numCell == p.numCell && n == p.numCell - 1 && numElements == p.numElements
      ensures this.exp == exp
      ensures jCoeff == CurrentCoefficient(q, vt, p)
      ensures cn == GenerationCoefficient(vt, p)
      ensures forall a, b :: 0 <= a <= numCell && 0 <= b <= numCell ==> nMob[a][b] == RelativeMobility(p)
      ensures forall j :: 0 <= j <= numCell ==>
                bottomBC[j] == BottomDensity(p, vt, exp) && topBC[j] == TopDensity(p, vt, exp)
      ensures leftBC == seq(numCell + 1, _ => 0.0) && rightBC == seq(numCell + 1, _ => 0.0)
      ensures mainDiag == seq(numElements + 1, _ => 0.0) && rhs == seq(numElements + 1, _ => 0.0)
      ensures lowerDiag == seq(numElements, _ => 0.0) && upperDiag == seq(numElements, _ => 0.0)
      ensures farLowerDiag == seq(numElements - n + 1, _ => 0.0)
      ensures farUpperDiag == seq(numElements - n + 1, _ => 0.0)
      ensures trpCnt == 0 && forall m :: 0 <= m < tripletList.Length ==> tripletList[m] == Blank
    {
      MulMonotone(1, p.numCell - 1, p.numCell - 1);
      assert p.numElements >= p.numCell - 1 >= 1;
      numCell := p.numCell;
      n := p.numCell - 1;
      numElements := p.numElements;
      this.exp := exp;
      jCoeff := CurrentCoefficient(q, vt, p);
      cn := GenerationCoefficient(vt, p);
      nMob := Constant(p.numCell + 1, RelativeMobility(p));
      tripletList := new Triplet[5 * p.numElements](_ => Blank);
      nMatrix := Constant(p.numCell + 1, 0.0);
      mainDiag := seq(p.numElements + 1, _ => 0.0);
      upperDiag := seq(p.numElements, _ => 0.0);
      lowerDiag := seq(p.numElements, _ => 0.0);
      farLowerDiag := seq(p.numElements - p.numCell + 2, _ => 0.0);
      farUpperDiag := seq(p.numElements - p.numCell + 2, _ => 0.0);
      rhs := seq(p.numElements + 1, _ => 0.0);
      leftBC := seq(p.numCell + 1, _ => 0.0);
      rightBC := seq(p.numCell + 1, _ => 0.0);
      bPosX := Constant(p.numCell + 1, 0.0);
      bNegX := Constant(p.numCell + 1, 0.0);
      bPosZ := Constant(p.numCell + 1, 0.0);
      bNegZ := Constant(p.numCell + 1, 0.0);
      jnZ := Constant(p.numCell + 1, 0.0);
      jnX := Constant(p.numCell + 1, 0.0);
      vecRhs := seq(p.numElements, _ => 0.0);
      trpCnt := 0;
      spTriplets := [];
      bottomBC := seq(p.numCell + 1, _ => BottomDensity(p, vt, exp));
      topBC := seq(p.numCell + 1, _ => TopDensity(p, vt, exp));
      new;
    }

    // -------------------------------------------------------------------------
    // Boundary densities from the current solution

    /** set_n_leftBC: leftBC[j] is the density of the first cell of x-row j, entry
        (j - 1) N + 1 of the solution; the corners keep their values. */
    method SetLeftBC(nv: seq<real>)
      requires Dims() && |leftBC| == n + 2 && |nv| > numElements
      modifies this`leftBC
      ensures |leftBC| == n + 2
      ensures forall j :: 1 <= j <= n ==> leftBC[j] == CellDensity(n, nv, 1, j)
      ensures leftBC[0] == old(leftBC[0]) && leftBC[n + 1] == old(leftBC[n + 1])
    {
      var j := 1;
      while j <= n
        invariant 1 <= j <= n + 1 && |leftBC| == n + 2
        invariant forall b :: 1 <= b < j ==> leftBC[b] == CellDensity(n, nv, 1, b)
        invariant leftBC[0] == old(leftBC[0]) && leftBC[n + 1] == old(leftBC[n + 1])
      {
        FlatClosed(n, 1, j);
        FlatInGrid(n, 1, j);
        leftBC := leftBC[j := nv[(j - 1) * n + 1]];
        j := j + 1;
      }
    }

    /** set_n_rightBC: rightBC[j] is the density of the last cell of x-row j, entry
        j N of the solution; the corners keep their values. */
    method SetRightBC(nv: seq<real>)
      requires Dims() && |rightBC| == n + 2 && |nv| > numElements
      modifies this`rightBC
      ensures |rightBC| == n + 2
      ensures forall j :: 1 <= j <= n ==> rightBC[j] == CellDensity(n, nv, n, j)
      ensures rightBC[0] == old(rightBC[0]) && rightBC[n + 1] == old(rightBC[n + 1])
    {
      var j := 1;
      while j <= n
        invariant 1 <= j <= n + 1 && |rightBC| == n + 2
        invariant forall b :: 1 <= b < j ==> rightBC[b] == CellDensity(n, nv, n, b)
        invariant rightBC[0] == old(rightBC[0]) && rightBC[n + 1] == old(rightBC[n + 1])
      {
        FlatClosed(n, n, j);
        FlatInGrid(n, n, j);
        assert j * n == (j - 1) * n + n;
        rightBC := rightBC[j := nv[j * n]];
        j := j + 1;
      }
    }

    // -------------------------------------------------------------------------
    // Bernoulli weights (Bernoulli_n_X, Bernoulli_n_Z)

    /** The potential step across every face: dV(i, j) = V(i, j) - V(i - di, j - dj) for
        1 <= i, j <= num_cell, and 0 in row and column 0; (di, dj) is (1, 0) for the
        x faces and (0, 1) for the z faces. */
    method PotentialSteps(v: Matrix, di: int, dj: int) returns (dV: Matrix)
      requires numCell >= 1 && Square(v, numCell + 1) && 0 <= di <= 1 && 0 <= dj <= 1
      ensures Square(dV, numCell + 1)
      ensures forall a, b :: 1 <= a <= numCell && 1 <= b <= numCell ==> dV[a][b] == Step(v, a, b, di, dj)
      ensures forall a, b :: 0 <= a <= numCell && 0 <= b <= numCell && (a == 0 || b == 0) ==> dV[a][b] == 0.0
    {
      dV := Constant(numCell + 1, 0.0);
      var i := 1;
      while i < numCell + 1
        invariant 1 <= i <= numCell + 1 && Square(dV, numCell + 1)
        invariant forall a, b :: 1 <= a < i && 1 <= b <= numCell ==> dV[a][b] == Step(v, a, b, di, dj)
        invariant forall a, b :: 0 <= a <= numCell && 0 <= b <= numCell && (a == 0 || b == 0 || a >= i) ==> dV[a][b] == 0.0
      {
        var j := 1;
        while j < numCell + 1
          invariant 1 <= j <= numCell + 1 && Square(dV, numCell + 1)
          invariant forall a, b :: 1 <= a < i && 1 <= b <= numCell ==> dV[a][b] == Step(v, a, b, di, dj)
          invariant forall b :: 1 <= b < j ==> dV[i][b] == Step(v, i, b, di, dj)
          invariant forall a, b :: 0 <= a <= numCell && 0 <= b <= numCell && (a == 0 || b == 0 || a > i || (a == i && b >= j)) ==> dV[a][b] == 0.0
        {
          dV := Put(dV, i, j, v[i][j] - v[i - di][j - dj]);
          assert dV[i][j] == Step(v, i, j, di, dj);
          j := j + 1;
        }
        i := i + 1;
      }
    }

    /** The weight loop shared by both directions: (pos, neg)(i, j) = FaceWeights(dV(i, j))
        for 1 <= i, j <= num_cell; row and column 0 keep the values of pos0 and neg0. */
    method FaceWeightLoop(dV: Matrix, pos0: Matrix, neg0: Matrix) returns (pos: Matrix, neg: Matrix)
      requires ExpLike(exp) && numCell >= 1
      requires Square(dV, numCell + 1) && Square(pos0, numCell + 1) && Square(neg0, numCell + 1)
      ensures Square(pos, numCell + 1) && Square(neg, numCell + 1)
      ensures forall a, b :: 1 <= a <= numCell && 1 <= b <= numCell ==>
                Weights(pos[a][b], neg[a][b]) == FaceWeights(dV[a][b], exp)
      ensures forall a, b :: 0 <= a <= numCell && 0 <= b <= numCell && (a == 0 || b == 0) ==>
                pos[a][b] == pos0[a][b] && neg[a][b] == neg0[a][b]
    {
      pos, neg := pos0, neg0;
      var i := 1;
      while i < numCell + 1
        invariant 1 <= i <= numCell + 1 && Square(pos, numCell + 1) && Square(neg, numCell + 1)
        invariant forall a, b :: 1 <= a < i && 1 <= b <= numCell ==>
                    Weights(pos[a][b], neg[a][b]) == FaceWeights(dV[a][b], exp)
        invariant forall a, b :: 0 <= a <= numCell && 0 <= b <= numCell && (a == 0 || b == 0) ==>
                    pos[a][b] == pos0[a][b] && neg[a][b] == neg0[a][b]
      {
        var j := 1;
        while j < numCell + 1
          invariant 1 <= j <= numCell + 1 && Square(pos, numCell + 1) && Square(neg, numCell + 1)
          invariant forall a, b :: 1 <= a < i && 1 <= b <= numCell ==>
                      Weights(pos[a][b], neg[a][b]) == FaceWeights(dV[a][b], exp)
          invariant forall b :: 1 <= b < j ==> Weights(pos[i][b], neg[i][b]) == FaceWeights(dV[i][b], exp)
          invariant forall a, b :: 0 <= a <= numCell && 0 <= b <= numCell && (a == 0 || b == 0) ==>
                      pos[a][b] == pos0[a][b] && neg[a][b] == neg0[a][b]
        {
          var w := FaceWeights(dV[i][j], exp);
          pos := Put(pos, i, j, w.pos);
          neg := Put(neg, i, j, w.neg);
          j := j + 1;
        }
        i := i + 1;
      }
    }

    /** The x-face weights hold FaceWeights of the potential step from the left neighbour. */
    ghost predicate XWeightsFrom(v: Matrix)
      reads this`bPosX, this`bNegX
      requires ExpLike(exp) && Square(v, numCell + 1) && numCell >= 1
      requires Square(bPosX, numCell + 1) && Square(bNegX, numCell + 1)
    {
      forall a, b :: 1 <= a <= numCell && 1 <= b <= numCell ==>
        Weights(bPosX[a][b], bNegX[a][b]) == FaceWeights(v[a][b] - v[a - 1][b], exp)
    }

    /** The z-face weights hold FaceWeights of the potential step from the neighbour below. */
    ghost predicate ZWeightsFrom(v: Matrix)
      reads this`bPosZ, this`bNegZ
      requires ExpLike(exp) && Square(v, numCell + 1) && numCell >= 1
      requires Square(bPosZ, numCell + 1) && Square(bNegZ, numCell + 1)
    {
      forall a, b :: 1 <= a <= numCell && 1 <= b <= numCell ==>
        Weights(bPosZ[a][b], bNegZ[a][b]) == FaceWeights(v[a][b] - v[a][b - 1], exp)
    }

    method BernoulliX(v: Matrix)
      requires Valid() && ExpLike(exp) && Square(v, numCell + 1)
      modifies this`bPosX, this`bNegX
      ensures Valid() && XWeightsFrom(v)
      ensures forall a, b :: 0 <= a <= numCell && 0 <= b <= numCell && (a == 0 || b == 0) ==>
                bPosX[a][b] == old(bPosX[a][b]) && bNegX[a][b] == old(bNegX[a][b])
    {
      var dV := PotentialSteps(v, 1, 0);
      bPosX, bNegX := FaceWeightLoop(dV, bPosX, bNegX);
    }

    method BernoulliZ(v: Matrix)
      requires Valid() && ExpLike(exp) && Square(v, numCell + 1)
      modifies this`bPosZ, this`bNegZ
      ensures Valid() && ZWeightsFrom(v)
      ensures forall a, b :: 0 <= a <= numCell && 0 <= b <= numCell && (a == 0 || b == 0) ==>
                bPosZ[a][b] == old(bPosZ[a][b]) && bNegZ[a][b] == old(bNegZ[a][b])
    {
      var dV := PotentialSteps(v, 0, 1);
      bPosZ, bNegZ := FaceWeightLoop(dV, bPosZ, bNegZ);
    }

    // -------------------------------------------------------------------------
    // The five bands. Each setter writes its band vector and puts one triplet per band
    // position into the slots from trpCnt on; every other slot of the buffer keeps its
    // value.

    /** set_far_lower_diag: the coupling of each cell of rows 2..N to the cell below it,
        at (k - 1 + N, k - 1). */
    method SetFarLowerDiag()
      requires Dims() && WeightsShaped() && |farLowerDiag| == numElements - n + 1 && farLowerDiag[0] == 0.0
      requires 0 <= trpCnt && trpCnt + (numElements - n) <= tripletList.Length
      modifies this`farLowerDiag, this`trpCnt, tripletList
      ensures farLowerDiag == FarLowerBand(n, nMob, Faces())
      ensures trpCnt == old(trpCnt) + (numElements - n)
      ensures tripletList[..] == Overwrite(old(tripletList[..]), old(trpCnt), Band(numElements - n, n, 0, farLowerDiag))
    {
      farLowerDiag := FarLowerDiagLoop(n, nMob, Faces(), farLowerDiag, tripletList, trpCnt);
      trpCnt := trpCnt + (numElements - n);
    }

    /** set_lower_diag: the coupling of each cell to its x neighbour on the left, at
        (k, k - 1); the positions of cells that close an x-row keep their 0. */
    method SetLowerDiag()
      requires Dims() && WeightsShaped() && ZeroWhereSkipped(n, lowerDiag)
      requires 0 <= trpCnt && trpCnt + (numElements - 1) <= tripletList.Length
      modifies this`lowerDiag, this`trpCnt, tripletList
      ensures lowerDiag == LowerBand(n, nMob, Faces())
      ensures trpCnt == old(trpCnt) + (numElements - 1)
      ensures tripletList[..] == Overwrite(old(tripletList[..]), old(trpCnt), Band(numElements - 1, 1, 0, lowerDiag))
    {
      lowerDiag := LowerDiagLoop(n, nMob, Faces(), lowerDiag, tripletList, trpCnt);
      trpCnt := trpCnt + (numElements - 1);
    }

    /** set_main_diag: the diagonal entry of every cell, at (k - 1, k - 1). */
    method SetMainDiag()
      requires Dims() && WeightsShaped() && |mainDiag| == numElements + 1 && mainDiag[0] == 0.0
      requires 0 <= trpCnt && trpCnt + numElements <= tripletList.Length
      modifies this`mainDiag, this`trpCnt, tripletList
      ensures mainDiag == MainBand(n, nMob, Faces())
      ensures trpCnt == old(trpCnt) + numElements
      ensures tripletList[..] == Overwrite(old(tripletList[..]), old(trpCnt), Band(numElements, 0, 0, mainDiag))
    {
      mainDiag := MainDiagLoop(n, nMob, Faces(), mainDiag, tripletList, trpCnt);
      trpCnt := trpCnt + numElements;
    }

    /** set_upper_diag: the coupling of each cell to its x neighbour on the right, at
        (k - 1, k); the positions of cells that close an x-row keep their 0. */
    method SetUpperDiag()
      requires Dims() && WeightsShaped() && ZeroWhereSkipped(n, upperDiag)
      requires 0 <= trpCnt && trpCnt + (numElements - 1) <= tripletList.Length
      modifies this`upperDiag, this`trpCnt, tripletList
      ensures upperDiag == UpperBand(n, nMob, Faces())
      ensures trpCnt == old(trpCnt) + (numElements - 1)
      ensures tripletList[..] == Overwrite(old(tripletList[..]), old(trpCnt), Band(numElements - 1, 0, 1, upperDiag))
    {
      upperDiag := UpperDiagLoop(n, nMob, Faces(), upperDiag, tripletList, trpCnt);
      trpCnt := trpCnt + (numElements - 1);
    }

    /** set_far_upper_diag: the coupling of each cell of rows 1..N-1 to the cell above
        it, at (k - 1, k - 1 + N). */
    method SetFarUpperDiag()
      requires Dims() && WeightsShaped() && |farUpperDiag| == numElements - n + 1 && farUpperDiag[0] == 0.0
      requires 0 <= trpCnt && trpCnt + (numElements - n) <= tripletList.Length
      modifies this`farUpperDiag, this`trpCnt, tripletList
      ensures farUpperDiag == FarUpperBand(n, nMob, Faces())
      ensures trpCnt == old(trpCnt) + (numElements - n)
      ensures tripletList[..] == Overwrite(old(tripletList[..]), old(trpCnt), Band(numElements - n, 0, n, farUpperDiag))
    {
      farUpperDiag := FarUpperDiagLoop(n, nMob, Faces(), farUpperDiag, tripletList, trpCnt);
      trpCnt := trpCnt + (numElements - n);
    }

    // -------------------------------------------------------------------------
    // Right-hand side, density grid and currents

    /** set_rhs: rhs[k] for every unknown, then the 0-based copy for the solver. */
    method SetRhs(un: Matrix)
      requires Dims() && WeightsShaped() && BoundaryShaped() && RhsShaped() && Square(un, numCell + 1)
      modifies this`rhs, this`vecRhs
      ensures RhsShaped()
      ensures forall k :: 1 <= k <= numElements ==>
                rhs[k] == RhsAt(n, cn, un, nMob, Faces(), leftBC, rightBC, bottomBC, topBC, k)
      ensures vecRhs == rhs[1..]
    {
      rhs := RhsLoop(n, cn, un, nMob, Faces(), leftBC, rightBC, bottomBC, topBC, rhs);
      vecRhs := SolverRhs(rhs, vecRhs);
    }

    /** to_matrix: the solution put back on the grid, ringed by the boundary densities. */
    method ToMatrix(nv: seq<real>)
      requires Dims() && BoundaryShaped() && HaloShaped() && |nv| > numElements
      modifies this`nMatrix
      ensures HaloShaped()
      ensures forall a, b :: 0 <= a <= numCell && 0 <= b <= numCell ==>
                nMatrix[a][b] == HaloAt(n, nv, leftBC, rightBC, bottomBC, topBC, a, b)
    {
      nMatrix := RebuildGrid(n, nv, leftBC, rightBC, bottomBC, topBC, nMatrix);
    }

    /** calculate_currents: Jn_Z and Jn_X on the faces of the interior cells. */
    method CalculateCurrents()
      requires Dims() && WeightsShaped() && HaloShaped()
      modifies this`jnX, this`jnZ
      ensures HaloShaped()
      ensures forall a, b :: 1 <= a <= n && 1 <= b <= n ==>
                jnZ[a][b] == CurrentZ(n, jCoeff, nMob, nMatrix, Faces(), a, b)
                && jnX[a][b] == CurrentX(n, jCoeff, nMob, nMatrix, Faces(), a, b)
      ensures forall a, b :: 0 <= a <= numCell && 0 <= b <= numCell && (a == 0 || a == numCell || b == 0 || b == numCell) ==>
                jnZ[a][b] == old(jnZ[a][b]) && jnX[a][b] == old(jnX[a][b])
    {
      jnX, jnZ := CurrentsLoop(n, jCoeff, nMob, nMatrix, Faces(), jnX, jnZ);
    }

    // -------------------------------------------------------------------------
    // One assembly

    /** Bernoulli_n_X then Bernoulli_n_Z: both weight pairs from the potential v. */
    method SetWeights(v: Matrix)
      requires Valid() && RimsZero() && ExpLike(exp) && Square(v, numCell + 1)
      modifies this`bPosX, this`bNegX, this`bPosZ, this`bNegZ
      ensures Valid() && RimsZero() && XWeightsFrom(v) && ZWeightsFrom(v)
    {
      BernoulliX(v);
      BernoulliZ(v);
    }

    /** The counter reset and the five band setters of setup_eqn: whatever trpCnt held
        before, the bands go into the triplet buffer from slot 0, the buffer then holds
        their layout and trpCnt counts the triplets written. */
    method SetBands()
      requires Dims() && WeightsShaped() && BandsShaped() && BufferShaped()
      modifies this`farLowerDiag, this`lowerDiag, this`mainDiag, this`upperDiag, this`farUpperDiag
      modifies this`trpCnt, tripletList
      ensures BandsShaped() && BufferShaped()
      ensures farLowerDiag == FarLowerBand(n, nMob, Faces()) && lowerDiag == LowerBand(n, nMob, Faces())
      ensures mainDiag == MainBand(n, nMob, Faces())
      ensures upperDiag == UpperBand(n, nMob, Faces()) && farUpperDiag == FarUpperBand(n, nMob, Faces())
      ensures trpCnt == TripletCount(n)
      ensures tripletList[..] == Layout(n, farLowerDiag, lowerDiag, mainDiag, upperDiag, farUpperDiag)
    {
      var f := Faces();
      var fl, lo, ma, up, fu :=
        AssembleBands(n, nMob, f, farLowerDiag, lowerDiag, mainDiag, upperDiag, farUpperDiag, tripletList);
      LayoutTail(n, fl, lo, ma, up, fu);
      farLowerDiag, lowerDiag, mainDiag, upperDiag, farUpperDiag := fl, lo, ma, up, fu;
      trpCnt := TripletCount(n);
    }

    /** The first half of setup_eqn: the Bernoulli weights from the potential, then the
        five bands into the triplet buffer from slot 0. */
    method AssembleOperator(v: Matrix)
      requires Valid() && RimsZero() && ExpLike(exp) && Square(v, numCell + 1)
      modifies this`bPosX, this`bNegX, this`bPosZ, this`bNegZ
      modifies this`farLowerDiag, this`lowerDiag, this`mainDiag, this`upperDiag, this`farUpperDiag
      modifies this`trpCnt, tripletList
      ensures Valid() && RimsZero()
      ensures XWeightsFrom(v) && ZWeightsFrom(v)
      ensures farLowerDiag == FarLowerBand(n, nMob, Faces()) && lowerDiag == LowerBand(n, nMob, Faces())
      ensures mainDiag == MainBand(n, nMob, Faces())
      ensures upperDiag == UpperBand(n, nMob, Faces()) && farUpperDiag == FarUpperBand(n, nMob, Faces())
      ensures trpCnt == TripletCount(n)
      ensures tripletList[..] == Layout(n, farLowerDiag, lowerDiag, mainDiag, upperDiag, farUpperDiag)
    {
      SetWeights(v);
      SetBands();
    }

    /** The second half of setup_eqn: the side boundary densities from the current
        solution, then the right-hand side. */
    method AssembleRhs(un: Matrix, nv: seq<real>)
      requires Valid() && RimsZero() && Square(un, numCell + 1) && |nv| > numElements
      modifies this`leftBC, this`rightBC, this`rhs, this`vecRhs
      ensures Valid() && RimsZero()
      ensures forall j :: 1 <= j <= n ==>
                leftBC[j] == CellDensity(n, nv, 1, j) && rightBC[j] == CellDensity(n, nv, n, j)
      ensures forall k :: 1 <= k <= numElements ==>
                rhs[k] == RhsAt(n, cn, un, nMob, Faces(), leftBC, rightBC, bottomBC, topBC, k)
      ensures vecRhs == rhs[1..]
    {
      SetRightBC(nv);
      SetLeftBC(nv);
      SetRhs(un);
    }

    /** setup_eqn: the operator and the right-hand side, and the sparse matrix built from
        the whole triplet buffer, leaving the state Assembled describes. The matrix is then
        the stencil on the grid: every entry is the coupling NeighbourMatrix states for its
        pair of cells. */
    method SetupEqn(v: Matrix, un: Matrix, nv: seq<real>)
      requires Valid() && RimsZero() && ExpLike(exp)
      requires Square(v, numCell + 1) && Square(un, numCell + 1) && |nv| > numElements
      modifies this`bPosX, this`bNegX, this`bPosZ, this`bNegZ
      modifies this`farLowerDiag, this`lowerDiag, this`mainDiag, this`upperDiag, this`farUpperDiag
      modifies this`trpCnt, tripletList, this`spTriplets
      modifies this`leftBC, this`rightBC, this`rhs, this`vecRhs
      ensures Assembled(v, un, nv)
      ensures forall r, c :: 0 <= r < numElements && 0 <= c < numElements ==>
                Entry(spTriplets, r, c) == NeighbourMatrix(n, nMob, Faces(), r, c)
    {
      AssembleOperator(v);
      AssembleRhs(un, nv);
      spTriplets := tripletList[..];
      LayoutIsStencil(n, nMob, Faces());
    }

    /** The state setup_eqn leaves for the potential v, the generation un and the
        solution nv: the weights follow v, the bands and the triplet buffer follow the
        weights, the sparse matrix is the buffer, the side boundaries follow nv and the
        right-hand side follows them, un and the weights. */
    ghost predicate Assembled(v: Matrix, un: Matrix, nv: seq<real>)
      reads this, tripletList
    {
      && Valid() && RimsZero() && ExpLike(exp)
      && Square(v, numCell + 1) && Square(un, numCell + 1) && |nv| > numElements
      && OperatorFrom(v) && RhsFrom(un, nv)
    }

    /** The operator half of Assembled. */
    ghost predicate OperatorFrom(v: Matrix)
      reads this, tripletList
      requires Dims() && WeightsShaped() && ExpLike(exp) && Square(v, numCell + 1)
    {
      && XWeightsFrom(v) && ZWeightsFrom(v)
      && farLowerDiag == FarLowerBand(n, nMob, Faces()) && lowerDiag == LowerBand(n, nMob, Faces())
      && mainDiag == MainBand(n, nMob, Faces())
      && upperDiag == UpperBand(n, nMob, Faces()) && farUpperDiag == FarUpperBand(n, nMob, Faces())
      && trpCnt == TripletCount(n)
      && spTriplets == Layout(n, farLowerDiag, lowerDiag, mainDiag, upperDiag, farUpperDiag)
      && tripletList[..] == spTriplets
    }

    /** The right-hand-side half of Assembled. */
    ghost predicate RhsFrom(un: Matrix, nv: seq<real>)
      reads this
      requires Dims() && WeightsShaped() && BoundaryShaped() && RhsShaped()
      requires Square(un, numCell + 1) && |nv| > numElements
    {
      && (forall j :: 1 <= j <= n ==>
            leftBC[j] == CellDensity(n, nv, 1, j) && rightBC[j] == CellDensity(n, nv, n, j))
      && (forall k :: 1 <= k <= numElements ==>
            rhs[k] == RhsAt(n, cn, un, nMob, Faces(), leftBC, rightBC, bottomBC, topBC, k))
      && vecRhs == rhs[1..]
    }

    /** The members setup_eqn writes, as one value. */
    function Snapshot(): System
      reads this, tripletList
    {
      System(Faces(), leftBC, rightBC, farLowerDiag, lowerDiag, mainDiag, upperDiag, farUpperDiag,
             trpCnt, spTriplets, tripletList[..], rhs, vecRhs)
    }

    /** An Assembled object holds the system of its inputs. */
    lemma SnapshotFrom(v: Matrix, un: Matrix, nv: seq<real>)
      requires Assembled(v, un, nv)
      ensures SystemFrom(Snapshot(), n, nMob, exp, cn, bottomBC, topBC, v, un, nv)
    {
    }

    /** setup_eqn is idempotent: on an object that already holds the system assembled
        from v, un and nv, assembling again from the same inputs leaves every member it
        writes as it was: the weights, the side boundaries, the bands, the counter, the
        triplet buffer, the sparse matrix and the right-hand side. */
    method Reassemble(v: Matrix, un: Matrix, nv: seq<real>)
      requires Assembled(v, un, nv)
      modifies this`bPosX, this`bNegX, this`bPosZ, this`bNegZ
      modifies this`farLowerDiag, this`lowerDiag, this`mainDiag, this`upperDiag, this`farUpperDiag
      modifies this`trpCnt, tripletList, this`spTriplets
      modifies this`leftBC, this`rightBC, this`rhs, this`vecRhs
      ensures Assembled(v, un, nv)
      ensures Snapshot() == old(Snapshot())
      ensures spTriplets == old(spTriplets) && rhs == old(rhs) && vecRhs == old(vecRhs)
    {
      ghost var before := Snapshot();
      SnapshotFrom(v, un, nv);
      SetupEqn(v, un, nv);
      SnapshotFrom(v, un, nv);
      SystemUnique(Snapshot(), before, n, nMob, exp, cn, bottomBC, topBC, v, un, nv);
    }



  }
}
