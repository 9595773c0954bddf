/** The electron density on the full (n+2) x (n+2) grid that the 2D assembler rebuilds
    after a solve (to_matrix), and the face currents it computes from it
    (calculate_currents). */
module DensityGrid {
  import opened GridIndex
  import opened Bernoulli
  import opened Stencil

  /** The four boundary density vectors, each on the (n+2)-point grid. */
  predicate Boundaries(n: int, left: seq<real>, right: seq<real>, bottom: seq<real>, top: seq<real>)
  {
    |left| == n + 2 && |right| == n + 2 && |bottom| == n + 2 && |top| == n + 2
  }

  /** The density of interior cell (a, b): entry Flat(a, b) of the 1-based solution. */
  function CellDensity(n: int, nv: seq<real>, a: int, b: int): real
    requires 1 <= a <= n && 1 <= b <= n && |nv| > n * n
  {
    FlatInGrid(n, a, b);
    nv[Flat(n, a, b)]
  }

  /** Entry (a, b) of n_matrix after to_matrix: the bottom and top densities along the
      first and last z-row (corners included), the left and right densities along the
      first and last x-column in between, and the solution on the interior. */
  function HaloAt(n: int, nv: seq<real>, left: seq<real>, right: seq<real>, bottom: seq<real>,
                  top: seq<real>, a: int, b: int): real
    requires n >= 1 && |nv| > n * n && Boundaries(n, left, right, bottom, top)
    requires 0 <= a <= n + 1 && 0 <= b <= n + 1
  {
    if b == 0 then bottom[a]
    else if b == n + 1 then top[a]
    else if a == 0 then left[b]
    else if a == n + 1 then right[b]
    else CellDensity(n, nv, a, b)
  }

  /** Reading the rebuilt grid at the cell of unknown k gives back entry k of the
      solution: to_matrix inverts the numbering of the unknowns. */
  lemma HaloRoundTrip(n: int, nv: seq<real>, left: seq<real>, right: seq<real>,
                      bottom: seq<real>, top: seq<real>, k: int)
    requires n >= 1 && |nv| > n * n && Boundaries(n, left, right, bottom, top)
    requires 1 <= k <= n * n
    ensures 1 <= ColOf(n, k) <= n && 1 <= RowOf(n, k) <= n
    ensures HaloAt(n, nv, left, right, bottom, top, ColOf(n, k), RowOf(n, k)) == nv[k]
  {
    CoordsInGrid(n, k);
    CoordsThenFlat(n, k);
  }

  /** When the side densities are copied from the first and last cell of each x-row, as
      set_n_leftBC and set_n_rightBC do, the rebuilt grid has no gradient across its left
      and right edges. */
  lemma SideBoundariesMirror(n: int, nv: seq<real>, left: seq<real>, right: seq<real>,
                             bottom: seq<real>, top: seq<real>, b: int)
    requires n >= 1 && |nv| > n * n && Boundaries(n, left, right, bottom, top) && 1 <= b <= n
    requires left[b] == CellDensity(n, nv, 1, b) && right[b] == CellDensity(n, nv, n, b)
    ensures HaloAt(n, nv, left, right, bottom, top, 0, b) == HaloAt(n, nv, left, right, bottom, top, 1, b)
    ensures HaloAt(n, nv, left, right, bottom, top, n + 1, b) == HaloAt(n, nv, left, right, bottom, top, n, b)
  {
  }

  /** The inputs of calculate_currents: mobility, weights and density on the grid. */
  predicate CurrentShape(n: int, mob: Matrix, nm: Matrix, f: Faces)
  {
    Grid(n, mob, f) && Square(nm, n + 2)
  }

  /** Jn_Z(i, j): the current through the face between (i, j - 1) and (i, j),
      J_coeff * mobility * (n(i, j) Bpos - n(i, j - 1) Bneg). */
  function CurrentZ(n: int, jc: real, mob: Matrix, nm: Matrix, f: Faces, i: int, j: int): real
    requires CurrentShape(n, mob, nm, f) && 1 <= i <= n && 1 <= j <= n
  {
    jc * mob[i][j] * (nm[i][j] * f.posZ[i][j] - nm[i][j - 1] * f.negZ[i][j])
  }

  /** Jn_X(i, j): the current through the face between (i - 1, j) and (i, j). */
  function CurrentX(n: int, jc: real, mob: Matrix, nm: Matrix, f: Faces, i: int, j: int): real
    requires CurrentShape(n, mob, nm, f) && 1 <= i <= n && 1 <= j <= n
  {
    jc * mob[i][j] * (nm[i][j] * f.posX[i][j] - nm[i - 1][j] * f.negX[i][j])
  }

  /** Densities in thermal equilibrium across a face of potential step dV: in the
      Boltzmann ratio exp(dV), or equal where the weights are the guarded 1. */
  predicate Boltzmann(here: real, lower: real, dV: real, exp: real -> real)
  {
    if Abs(dV) >= Threshold then here == lower * exp(dV) else here == lower
  }

  /** No current crosses a z face whose weights are the Bernoulli weights of its
      potential step and whose densities are in equilibrium across it. */
  lemma EquilibriumCurrentZ(n: int, jc: real, mob: Matrix, nm: Matrix, f: Faces, i: int, j: int,
                            dV: real, exp: real -> real)
    requires CurrentShape(n, mob, nm, f) && 1 <= i <= n && 1 <= j <= n && ExpLike(exp)
    requires Weights(f.posZ[i][j], f.negZ[i][j]) == FaceWeights(dV, exp)
    requires Boltzmann(nm[i][j], nm[i][j - 1], dV, exp)
    ensures CurrentZ(n, jc, mob, nm, f, i, j) == 0.0
  {
    EquilibriumFluxVanishes(dV, nm[i][j - 1], exp);
    assert nm[i][j] * f.posZ[i][j] - nm[i][j - 1] * f.negZ[i][j]
        == FaceFlux(nm[i][j], nm[i][j - 1], FaceWeights(dV, exp));
  }

  /** The same for an x face. */
  lemma EquilibriumCurrentX(n: int, jc: real, mob: Matrix, nm: Matrix, f: Faces, i: int, j: int,
                            dV: real, exp: real -> real)
    requires CurrentShape(n, mob, nm, f) && 1 <= i <= n && 1 <= j <= n && ExpLike(exp)
    requires Weights(f.posX[i][j], f.negX[i][j]) == FaceWeights(dV, exp)
    requires Boltzmann(nm[i][j], nm[i - 1][j], dV, exp)
    ensures CurrentX(n, jc, mob, nm, f, i, j) == 0.0
  {
    EquilibriumFluxVanishes(dV, nm[i - 1][j], exp);
    assert nm[i][j] * f.posX[i][j] - nm[i - 1][j] * f.negX[i][j]
        == FaceFlux(nm[i][j], nm[i - 1][j], FaceWeights(dV, exp));
  }
}
