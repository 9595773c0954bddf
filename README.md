# A verified model of the drift-diffusion Gummel solver core

This project models, in Dafny, the core of a finite-difference drift-diffusion solver for
organic solar cells. The system discretises the Poisson and carrier continuity equations on a
uniform grid. It uses the Scharfetter–Gummel scheme and iterates them to self-consistency
(Gummel iteration) at every applied voltage of a sweep. The model covers four parts:

* the electron continuity assembler of the 2D solver, class `Continuity_n`
  (`continuity_n.cpp`). It builds the Bernoulli weights, the five bands of the
  pentadiagonal operator, the triplet buffer for the sparse matrix and the right-hand side.
  It also rebuilds the density grid from a solution and computes the currents;
* the Gummel driver of the 3D single-carrier solver (its `main.cpp`): the initial
  potential ramp, the sweep over applied voltages, the inner iteration with mixing,
  clamping, the relative-change error and the stall-driven adaptation of the damping and
  the tolerance, and the periodic halo of the full-grid tensors;
* the Gummel driver of the 3D two-carrier solver (its `main.cpp`): the layered initial
  potential, the equilibrium run followed by the sweep, generation gating, and the joint
  error of n and p;
* parameter validation (`parameters.cpp` of the 3D single-carrier solver): the
  positivity guards, the first failing check that ends the program, and the derived cell
  counts.

All quantities are real numbers. The program's `+inf` is the `ExtReal` value `PosInf`.

## Modules

| file | module | contents |
|---|---|---|
| grid_index.dfy | GridIndex | the 2D numbering k = (j-1)N + i of the unknowns and its inverse; the 3D index maps |
| bernoulli.dfy | Bernoulli | the Bernoulli face weights B(±dV) with the small-step guard |
| sparse.dfy | Sparse | triplets, the sum that `setFromTriplets` forms, the five-band layout of the buffer |
| stencil.dfy | Stencil | the band vectors and right-hand side as functions of the grid, and the operator stated cell by cell |
| density_grid.dfy | DensityGrid | the density grid ringed by boundary values, and the face currents |
| continuity_n.dfy | Continuity | class `ContinuityN` and the loops its methods run |
| gummel.dfy | Gummel | what both drivers share: the error quotient, clamping, stall counting, the bias schedule |
| gummel_single.dfy | GummelSingle | the 3D single-carrier driver |
| gummel_two.dfy | GummelTwo | the 3D two-carrier driver |
| parameters.dfy | Parameters | class `Parameters`: validation and derived counts |

Three pieces stay abstract. The linear solvers (Poisson, continuity for n and p) are a
`Solvers` record of functions. The knob policy of the parameter object (`linear_mix`,
`reduce_w`, `relax_tolerance`, `use_w_eq`, …) is a `Policy` record. The exponential is
a parameter constrained by the `ExpLike` predicate: exp(0) = 1, exp(x) > 1 for x > 0 and
0 < exp(x) < 1 for x < 0, so it is positive everywhere and exceeds 1 exactly for x > 0.

## Model

| member | source | states |
|---|---|---|
| Bernoulli.FaceWeights | 2D/Two-charge-carriers/C++_implementation/continuity_n.cpp:256-264 | both weights are positive; inside the 1e-13 guard both are exactly 1; otherwise B(-dV) = B(dV)·exp(dV) and B(-dV) − B(dV) = dV |
| Bernoulli.FlatPotentialUnitWeights | 2D/Two-charge-carriers/C++_implementation/continuity_n.cpp:258-260 | a face with no potential step has unit weights |
| Bernoulli.EquilibriumFluxVanishes | 2D/Two-charge-carriers/C++_implementation/continuity_n.cpp:317-318 | the Scharfetter–Gummel flux across a face is zero when the two densities are in Boltzmann ratio exp(dV) |
| GridIndex.FlatClosed | 2D/Two-charge-carriers/C++_implementation/continuity_n.cpp:294-298 | cell (i, j) is unknown (j-1)N + i: i, plus N for each x-row below it |
| GridIndex.CoordsDivMod | 2D/Two-charge-carriers/C++_implementation/continuity_n.cpp:295-298 | the column of unknown k is (k-1) mod N + 1 and its row is (k-1) div N + 1, the formulas to_matrix uses |
| GridIndex.FlatThenCoords | 2D/Two-charge-carriers/C++_implementation/continuity_n.cpp:294-298 | numbering a cell and reading its coordinates back returns the cell |
| GridIndex.CoordsThenFlat | 2D/Two-charge-carriers/C++_implementation/continuity_n.cpp:294-298 | reading the coordinates of an unknown and numbering them returns the unknown |
| GridIndex.FlatInGrid | 2D/Two-charge-carriers/C++_implementation/continuity_n.cpp:294-298 | an interior cell's number is an index of the solution vector |
| GridIndex.CoordsInGrid | 2D/Two-charge-carriers/C++_implementation/continuity_n.cpp:294-298 | every unknown 1..N² lies inside the interior |
| GridIndex.FlatInjective | 2D/Two-charge-carriers/C++_implementation/continuity_n.cpp:294-298 | distinct interior cells get distinct numbers |
| GridIndex.FlatInRows | 2D/Two-charge-carriers/C++_implementation/continuity_n.cpp:91-109 | a cell of the first R x-rows is numbered within 1..R·N |
| GridIndex.CoordsInRows | 2D/Two-charge-carriers/C++_implementation/continuity_n.cpp:91-109 | an unknown numbered within 1..R·N lies in the first R x-rows |
| GridIndex.CoordsInLowerRows | 2D/Two-charge-carriers/C++_implementation/continuity_n.cpp:178-195 | an unknown ≤ N² − N lies in rows 1..N-1, so the cell above it exists |
| GridIndex.FlatRowBound | 2D/Two-charge-carriers/C++_implementation/continuity_n.cpp:91-109 | a cell numbered at most R·N lies in one of the first R x-rows |
| GridIndex.FlatShift | 2D/Two-charge-carriers/C++_implementation/continuity_n.cpp:113-131 | moving d cells along an x-row adds d to the number |
| GridIndex.DivModStep | 2D/Two-charge-carriers/C++_implementation/continuity_n.cpp:103-107 | incrementing x moves x mod N one on, wrapping to 0 exactly when x div N steps |
| GridIndex.NextCell | 2D/Two-charge-carriers/C++_implementation/continuity_n.cpp:103-107 | the hand-stepped counters (i++, and past N back to i = 1 with j++) hold the coordinates of the current index |
| GridIndex.NextRow | 2D/Two-charge-carriers/C++_implementation/continuity_n.cpp:92-98 | unknown k + N is the cell above unknown k (same column, next row), which is why the far-lower loop starts its counters at j = 2 |
| GridIndex.WrappedColumn | 2D/Two-charge-carriers/C++_implementation/continuity_n.cpp:295-296 | the column read from index % N, with 0 taken as N, is the cell's column, and it is N exactly when N divides the index |
| GridIndex.Index3InRange | 3D/C++_implementation/Single-charge-carrier/main.cpp:179-190 | the 3D flattening maps the box into 0..rows-1 |
| GridIndex.Index3ThenCoords | 3D/C++_implementation/Single-charge-carrier/main.cpp:179-190 | the reshape from tensor to vector loses no cell: reading coordinates back gives the cell |
| GridIndex.CoordsThenIndex3 | 3D/C++_implementation/Single-charge-carrier/main.cpp:300-302 | every vector index is the flattening of the cell it is read back from |
| Sparse.EntryAppend | 2D/Two-charge-carriers/C++_implementation/continuity_n.cpp:85 | the matrix entry from a triplet list splits over concatenation, so duplicate triplets are summed |
| Sparse.Band | 2D/Two-charge-carriers/C++_implementation/continuity_n.cpp:96-100 | a band contributes one triplet per position it covers |
| Sparse.Overwrite | 2D/Two-charge-carriers/C++_implementation/continuity_n.cpp:100 | writing a run of triplets from slot trp_cnt keeps the buffer length |
| Sparse.OverwriteSlots | 2D/Two-charge-carriers/C++_implementation/continuity_n.cpp:100 | after the write the slots in the run hold the new triplets and every other slot is unchanged |
| Sparse.SlotsOverwrite | 2D/Two-charge-carriers/C++_implementation/continuity_n.cpp:100 | a buffer that agrees slot by slot with that description is the overwrite |
| Sparse.BandEntry | 2D/Two-charge-carriers/C++_implementation/continuity_n.cpp:85 | a band adds its value exactly at the positions it covers, at its row and column offset |
| Sparse.Filler | 2D/Two-charge-carriers/C++_implementation/continuity_n.cpp:48 | the unused tail of the buffer is blank triplets |
| Sparse.FillerEntry | 2D/Two-charge-carriers/C++_implementation/continuity_n.cpp:85 | blank triplets add nothing to the matrix |
| Sparse.Layout | 2D/Two-charge-carriers/C++_implementation/continuity_n.cpp:48 | the buffer holds 5·num_elements slots after the five bands are written |
| Sparse.LayoutTail | 2D/Two-charge-carriers/C++_implementation/continuity_n.cpp:48 | the slots past the written triplets keep their blank value |
| Sparse.OverwriteAppends | 2D/Two-charge-carriers/C++_implementation/continuity_n.cpp:100 | overwriting at the end of the written prefix extends that prefix |
| Sparse.OverwritesAreLayout | 2D/Two-charge-carriers/C++_implementation/continuity_n.cpp:96-186 | the five setters, run one after another from slot 0, leave exactly the five-band layout |
| Sparse.RunsOrdered | 2D/Two-charge-carriers/C++_implementation/continuity_n.cpp:96-186 | the five runs are adjacent and in setter order |
| Sparse.TailIsFiller | 2D/Two-charge-carriers/C++_implementation/continuity_n.cpp:48 | the part of the buffer no setter reaches is blank |
| Sparse.TripletCountFits | 2D/Two-charge-carriers/C++_implementation/continuity_n.cpp:48 | the 5N² − 2N − 2 triplets written fit in the 5·num_elements buffer |
| Sparse.LayoutInRange | 2D/Two-charge-carriers/C++_implementation/continuity_n.cpp:100-186 | every row and column index written is inside 0..N²-1 |
| Sparse.LayoutSegments | 2D/Two-charge-carriers/C++_implementation/continuity_n.cpp:85 | the layout is the five bands followed by blanks |
| Sparse.LayoutEntry | 2D/Two-charge-carriers/C++_implementation/continuity_n.cpp:85 | the matrix built from the layout is the sum of the five bands' contributions |
| Sparse.LayoutConsolidates | 2D/Two-charge-carriers/C++_implementation/continuity_n.cpp:85 | the matrix from the whole buffer is the five-band matrix; entries off the five bands are zero |
| Stencil.Constant | 2D/Two-charge-carriers/C++_implementation/continuity_n.cpp:33 | the uniform mobility grid has every entry equal to the relative mobility |
| Stencil.Put | 2D/Two-charge-carriers/C++_implementation/continuity_n.cpp:300 | a grid store n_matrix(i, j) = x changes the addressed entry and no other |
| Stencil.OffDiagonalCount | 2D/Two-charge-carriers/C++_implementation/continuity_n.cpp:10-14 | the far bands have N² − N entries and the near bands N² − 1, neither negative |
| Stencil.FarLowerBand | 2D/Two-charge-carriers/C++_implementation/continuity_n.cpp:91-109 | far_lower_diag: slot 0 unused; entry k is the coupling of cell k + N to the cell below it |
| Stencil.LowerBand | 2D/Two-charge-carriers/C++_implementation/continuity_n.cpp:113-131 | lower_diag: entry k is the coupling to the left x neighbour, and 0 where an x-row ends |
| Stencil.MainBand | 2D/Two-charge-carriers/C++_implementation/continuity_n.cpp:134-154 | main_diag: entry k is the cell's own four-face sum |
| Stencil.UpperBand | 2D/Two-charge-carriers/C++_implementation/continuity_n.cpp:157-175 | upper_diag: entry k is the coupling to the right x neighbour, and 0 where an x-row ends |
| Stencil.FarUpperBand | 2D/Two-charge-carriers/C++_implementation/continuity_n.cpp:178-195 | far_upper_diag: entry k is the coupling of cell k to the cell above it |
| Stencil.NeighbourOffsets | 2D/Two-charge-carriers/C++_implementation/continuity_n.cpp:96-186 | geometric neighbours sit at numbering offsets ±1 (x) and ±N (z) only |
| Stencil.MainCoupling | 2D/Two-charge-carriers/C++_implementation/continuity_n.cpp:138-145 | the diagonal of the band matrix is the cell-by-cell diagonal |
| Stencil.LowerCoupling | 2D/Two-charge-carriers/C++_implementation/continuity_n.cpp:117-122 | the band entry at offset −1 is the left-neighbour coupling, and 0 across the end of an x-row |
| Stencil.UpperCoupling | 2D/Two-charge-carriers/C++_implementation/continuity_n.cpp:161-166 | the band entry at offset +1 is the right-neighbour coupling, and 0 across the end of an x-row |
| Stencil.FarLowerCoupling | 2D/Two-charge-carriers/C++_implementation/continuity_n.cpp:96-100 | the band entry at offset −N is the coupling to the cell below |
| Stencil.FarUpperCoupling | 2D/Two-charge-carriers/C++_implementation/continuity_n.cpp:182-186 | the band entry at offset +N is the coupling to the cell above |
| Stencil.NoCoupling | 2D/Two-charge-carriers/C++_implementation/continuity_n.cpp:85 | cells that are not neighbours are not coupled: the band matrix is 0 there |
| Stencil.NearCoupling | 2D/Two-charge-carriers/C++_implementation/continuity_n.cpp:113-175 | for offsets −1, 0 and +1 the band matrix and the cell-by-cell operator agree |
| Stencil.FarCoupling | 2D/Two-charge-carriers/C++_implementation/continuity_n.cpp:91-195 | for every other offset the band matrix and the cell-by-cell operator agree |
| Stencil.BandsAreNeighbourMatrix | 2D/Two-charge-carriers/C++_implementation/continuity_n.cpp:91-195 | the five band vectors at their offsets are exactly the five-point operator on the grid, with no coupling across the end of an x-row |
| Stencil.MainDiagPositive | 2D/Two-charge-carriers/C++_implementation/continuity_n.cpp:140-143 | with positive mobilities and weights every diagonal entry is positive |
| Stencil.FlatPotentialLaplacian | 2D/Two-charge-carriers/C++_implementation/continuity_n.cpp:96-186 | with a flat potential and uniform mobility m the operator is the five-point Laplacian: 4m on the diagonal, −m to each neighbour |
| Stencil.RhsMatchesReference | 2D/Two-charge-carriers/C++_implementation/continuity_n.cpp:199-235 | the branch-by-branch rhs (corners, edges, interior) equals one formula: generation term plus each boundary neighbour's contribution |
| Stencil.SingleCellReference | 2D/Two-charge-carriers/C++_implementation/continuity_n.cpp:203-213 | with N = 1 the reference formula gives all four boundary contributions |
| Stencil.RhsFirstCell | 2D/Two-charge-carriers/C++_implementation/continuity_n.cpp:207-208 | the first cell takes the generation term plus its left and bottom boundary contributions |
| Stencil.SingleCellRhs | 2D/Two-charge-carriers/C++_implementation/continuity_n.cpp:203-213 | with N = 1 the first-cell branch is the only one taken, so the right and top contributions are dropped |
| DensityGrid.HaloRoundTrip | 2D/Two-charge-carriers/C++_implementation/continuity_n.cpp:294-300 | each interior grid entry after to_matrix is the solution entry of that cell's number |
| DensityGrid.SideBoundariesMirror | 2D/Two-charge-carriers/C++_implementation/continuity_n.cpp:54-66 | the side columns of the grid repeat the first and last interior columns of the solution |
| DensityGrid.EquilibriumCurrentZ | 2D/Two-charge-carriers/C++_implementation/continuity_n.cpp:317 | Jn_Z vanishes on every face where the densities are in Boltzmann equilibrium with the potential |
| DensityGrid.EquilibriumCurrentX | 2D/Two-charge-carriers/C++_implementation/continuity_n.cpp:318 | Jn_X vanishes on every face where the densities are in Boltzmann equilibrium with the potential |
| Continuity.FarLowerDiagLoop | 2D/Two-charge-carriers/C++_implementation/continuity_n.cpp:91-109 | the loop writes FarLowerBand and one triplet per position at (k-1+N, k-1), leaving other slots alone |
| Continuity.LowerDiagLoop | 2D/Two-charge-carriers/C++_implementation/continuity_n.cpp:113-131 | the loop writes LowerBand and its triplets at (k, k-1), skipping the ends of x-rows |
| Continuity.LowerEntry | 2D/Two-charge-carriers/C++_implementation/continuity_n.cpp:119-120 | a position whose cell is not the first of its x-row gets the left-neighbour coupling; every other position is unchanged, so skipped positions stay 0 |
| Continuity.UpperEntry | 2D/Two-charge-carriers/C++_implementation/continuity_n.cpp:163-164 | a position whose cell is not the last of its x-row gets the right-neighbour coupling; every other position is unchanged, so skipped positions stay 0 |
| Continuity.MainDiagLoop | 2D/Two-charge-carriers/C++_implementation/continuity_n.cpp:134-154 | the loop writes MainBand and its triplets at (k-1, k-1) |
| Continuity.UpperDiagLoop | 2D/Two-charge-carriers/C++_implementation/continuity_n.cpp:157-175 | the loop writes UpperBand and its triplets at (k-1, k), skipping the ends of x-rows |
| Continuity.FarUpperDiagLoop | 2D/Two-charge-carriers/C++_implementation/continuity_n.cpp:178-195 | the loop writes FarUpperBand and its triplets at (k-1, k-1+N) |
| Continuity.RhsLoop | 2D/Two-charge-carriers/C++_implementation/continuity_n.cpp:201-235 | every rhs entry is the set_rhs value of its cell (the reference formula when N ≥ 2) |
| Continuity.SolverRhs | 2D/Two-charge-carriers/C++_implementation/continuity_n.cpp:238-240 | the solver's 0-based vector is the rhs shifted by one |
| Continuity.FillInterior | 2D/Two-charge-carriers/C++_implementation/continuity_n.cpp:294-301 | the interior of n_matrix holds the solution cell by cell |
| Continuity.FillSides | 2D/Two-charge-carriers/C++_implementation/continuity_n.cpp:302-305 | the side columns of n_matrix hold the left and right boundary densities |
| Continuity.FillBottomTop | 2D/Two-charge-carriers/C++_implementation/continuity_n.cpp:306-309 | the bottom and top rows of n_matrix hold the electrode densities |
| Continuity.RebuildGrid | 2D/Two-charge-carriers/C++_implementation/continuity_n.cpp:292-311 | n_matrix is the solution ringed by its boundary values |
| Continuity.CurrentsLoop | 2D/Two-charge-carriers/C++_implementation/continuity_n.cpp:315-320 | every interior face current is the Scharfetter–Gummel flux; the border entries are unchanged |
| Continuity.AssembleBands | 2D/Two-charge-carriers/C++_implementation/continuity_n.cpp:76-80 | the five setters in order leave the five bands and the triplet buffer holding their layout |
| Continuity.LayoutIsStencil | 2D/Two-charge-carriers/C++_implementation/continuity_n.cpp:85 | the sparse matrix built from the buffer is, entry by entry, the five-point operator on the grid |
| Continuity.ContinuityN.constructor | 2D/Two-charge-carriers/C++_implementation/continuity_n.cpp:3-49 | the sizes, the coefficients J_coeff and Cn, uniform mobility, electrode densities from the band offsets, and zeroed bands, rhs, side boundaries and buffer; row and column 0 of every weight matrix are 0 |
| Continuity.ContinuityN.SetLeftBC | 2D/Two-charge-carriers/C++_implementation/continuity_n.cpp:54-59 | the left boundary of each x-row is the density of that row's first cell; the corners are kept |
| Continuity.ContinuityN.SetRightBC | 2D/Two-charge-carriers/C++_implementation/continuity_n.cpp:61-66 | the right boundary of each x-row is the density of that row's last cell; the corners are kept |
| Continuity.ContinuityN.PotentialSteps | 2D/Two-charge-carriers/C++_implementation/continuity_n.cpp:250-254 | each face's potential step is the difference to the previous cell in that direction; row and column 0 are 0 |
| Continuity.ContinuityN.FaceWeightLoop | 2D/Two-charge-carriers/C++_implementation/continuity_n.cpp:256-266 | every face gets the Bernoulli weights of its step; row and column 0 are kept |
| Continuity.ContinuityN.BernoulliX | 2D/Two-charge-carriers/C++_implementation/continuity_n.cpp:248-267 | the x-face weights follow the potential step from the left neighbour |
| Continuity.ContinuityN.BernoulliZ | 2D/Two-charge-carriers/C++_implementation/continuity_n.cpp:269-288 | the z-face weights follow the potential step from the neighbour below |
| Continuity.ContinuityN.SetFarLowerDiag | 2D/Two-charge-carriers/C++_implementation/continuity_n.cpp:91-109 | the band is FarLowerBand, its triplets go in from trp_cnt, and trp_cnt advances by N² − N |
| Continuity.ContinuityN.SetLowerDiag | 2D/Two-charge-carriers/C++_implementation/continuity_n.cpp:113-131 | the band is LowerBand, its triplets go in from trp_cnt, and trp_cnt advances by N² − 1 |
| Continuity.ContinuityN.SetMainDiag | 2D/Two-charge-carriers/C++_implementation/continuity_n.cpp:134-154 | the band is MainBand, its triplets go in from trp_cnt, and trp_cnt advances by N² |
| Continuity.ContinuityN.SetUpperDiag | 2D/Two-charge-carriers/C++_implementation/continuity_n.cpp:157-175 | the band is UpperBand, its triplets go in from trp_cnt, and trp_cnt advances by N² − 1 |
| Continuity.ContinuityN.SetFarUpperDiag | 2D/Two-charge-carriers/C++_implementation/continuity_n.cpp:178-195 | the band is FarUpperBand, its triplets go in from trp_cnt, and trp_cnt advances by N² − N |
| Continuity.ContinuityN.SetRhs | 2D/Two-charge-carriers/C++_implementation/continuity_n.cpp:199-242 | every rhs entry is the set_rhs value of its cell (the reference formula when N ≥ 2), and the solver vector is its 0-based copy |
| Continuity.ContinuityN.ToMatrix | 2D/Two-charge-carriers/C++_implementation/continuity_n.cpp:292-311 | n_matrix is the solution on the grid ringed by the four boundary densities |
| Continuity.ContinuityN.CalculateCurrents | 2D/Two-charge-carriers/C++_implementation/continuity_n.cpp:313-321 | Jn_Z and Jn_X on the interior faces are the fluxes of n_matrix; the border entries are kept |
| Continuity.ContinuityN.SetWeights | 2D/Two-charge-carriers/C++_implementation/continuity_n.cpp:74-75 | both weight pairs follow the given potential |
| Continuity.ContinuityN.SetBands | 2D/Two-charge-carriers/C++_implementation/continuity_n.cpp:73-80 | whatever trp_cnt held before, the buffer then holds the five-band layout from slot 0 and trp_cnt counts its triplets |
| Continuity.ContinuityN.AssembleOperator | 2D/Two-charge-carriers/C++_implementation/continuity_n.cpp:73-80 | the weights of the potential, the five bands and their layout in the buffer |
| Continuity.ContinuityN.AssembleRhs | 2D/Two-charge-carriers/C++_implementation/continuity_n.cpp:81-83 | the side boundaries come from the current solution, then the right-hand side uses them |
| Continuity.ContinuityN.SetupEqn | 2D/Two-charge-carriers/C++_implementation/continuity_n.cpp:71-87 | after setup_eqn the weights follow the potential, the side boundaries the solution, the buffer holds the five-band layout, the sparse matrix is entry by entry the five-point Scharfetter–Gummel operator of the potential, and every rhs entry is the set_rhs value of its cell (the reference formula when N ≥ 2) |
| Continuity.ContinuityN.SnapshotFrom | 2D/Two-charge-carriers/C++_implementation/continuity_n.cpp:71-87 | an object setup_eqn has assembled holds, as one value, the system its inputs determine |
| Continuity.SystemUnique | 2D/Two-charge-carriers/C++_implementation/continuity_n.cpp:71-87 | the potential, generation and solution determine the assembled system: two systems built from the same inputs are equal |
| Continuity.ContinuityN.Reassemble | 2D/Two-charge-carriers/C++_implementation/continuity_n.cpp:71-87 | setup_eqn is idempotent: a second call with the same inputs leaves the weights, side boundaries, bands, trp_cnt, triplet buffer, sparse matrix, rhs and solver vector as they were |
| Continuity.SameXWeights | 2D/Two-charge-carriers/C++_implementation/continuity_n.cpp:248-267 | two x-weight pairs that follow the same potential and are 0 on row and column 0 are equal |
| Continuity.SameZWeights | 2D/Two-charge-carriers/C++_implementation/continuity_n.cpp:269-288 | two z-weight pairs that follow the same potential and are 0 on row and column 0 are equal |
| Gummel.Quotient | 3D/C++_implementation/Single-charge-carrier/main.cpp:381 | the relative change is never negative; it is infinite exactly when the old value is 0; otherwise quotient × old = change |
| Gummel.Zeros | 3D/C++_implementation/Single-charge-carrier/main.cpp:378 | the cleared error vector holds zeros only |
| Gummel.MaxElementIsMaximum | 3D/C++_implementation/Single-charge-carrier/main.cpp:395 | the maximum is an element of the vector and no element exceeds it |
| Gummel.MaxElementNonNegative | 3D/C++_implementation/Single-charge-carrier/main.cpp:395 | the maximum of non-negative ratios is non-negative |
| Gummel.MaxElementOfZeros | 3D/C++_implementation/Single-charge-carrier/main.cpp:395 | the maximum of a cleared vector is 0 |
| Gummel.Clamped | 3D/C++_implementation/Single-charge-carrier/main.cpp:368-371 | a clamped density is never negative, and non-negative values pass unchanged |
| Gummel.ClampRange | 3D/C++_implementation/Single-charge-carrier/main.cpp:368-371 | the indices in range are clamped in place and every other index is unchanged |
| Gummel.MinDense | 3D/C++_implementation/Single-charge-carrier/main.cpp:199 | min_dense is one of the two electrode densities and no larger than either |
| Gummel.StallCountStep | 3D/C++_implementation/Single-charge-carrier/main.cpp:400-406 | not_cnv_cnt stays in 0..limit (1000 in the single-carrier driver, 2000 in the two-carrier one); the knobs adapt exactly when the error did not fall with the counter at its limit, otherwise the counter bumps or stays |
| Gummel.BiasesInRange | 3D/C++_implementation/Single-charge-carrier/main.cpp:97-230 | every Va of the sweep lies in [Va_min, Va_max] and consecutive ones differ by increment |
| Gummel.BiasPastSweep | 3D/C++_implementation/Single-charge-carrier/main.cpp:97-226 | one step past num_V would leave [Va_min, Va_max] |
| GummelSingle.Cell | 3D/C++_implementation/Single-charge-carrier/main.cpp:179-190 | every interior cell maps to a solution index in 0..num_rows-1 |
| GummelSingle.CellInjective | 3D/C++_implementation/Single-charge-carrier/main.cpp:179-190 | distinct cells map to distinct solution indices |
| GummelSingle.RampTensor | 3D/C++_implementation/Single-charge-carrier/main.cpp:169-175 | the initial-guess tensor ramps linearly in z from the bottom electrode value |
| GummelSingle.Ramp | 3D/C++_implementation/Single-charge-carrier/main.cpp:166-190 | the reshaped initial potential has num_rows entries |
| GummelSingle.RampAtCell | 3D/C++_implementation/Single-charge-carrier/main.cpp:166-190 | each cell's initial potential is the bottom value plus diff times its z layer |
| GummelSingle.InitialPotential | 3D/C++_implementation/Single-charge-carrier/main.cpp:166-196 | the shuffled and reshaped tensor is the ramp |
| GummelSingle.RampSteps | 3D/C++_implementation/Single-charge-carrier/main.cpp:172 | consecutive z layers differ by diff |
| GummelSingle.RampReachesTop | 3D/C++_implementation/Single-charge-carrier/main.cpp:166-172 | the ramp reaches the top electrode value at z = num_cell_z |
| GummelSingle.UniformDensity | 3D/C++_implementation/Single-charge-carrier/main.cpp:199-203 | the initial p is min_dense everywhere |
| GummelSingle.HaloIsPeriodic | 3D/C++_implementation/Single-charge-carrier/main.cpp:306-326 | the full grid holds the solution inside; the x = 0 face repeats x = num_cell_x and the y = 0 face repeats y = num_cell_y; the edge (0, 0, k) repeats (num_cell_x, 1, k), not its doubly periodic image; the z = 0 plane holds the electrode value |
| GummelSingle.FillInterior | 3D/C++_implementation/Single-charge-carrier/main.cpp:306-309 | the interior of the full tensor holds the solution; everything else is kept |
| GummelSingle.FillBottom | 3D/C++_implementation/Single-charge-carrier/main.cpp:311-313 | the z = 0 plane holds the bottom electrode value; everything else is kept |
| GummelSingle.FillXSide | 3D/C++_implementation/Single-charge-carrier/main.cpp:315-317 | the x = 0 face repeats x = num_cell_x; everything else is kept |
| GummelSingle.FillYSide | 3D/C++_implementation/Single-charge-carrier/main.cpp:319-321 | the y = 0 face repeats y = num_cell_y; everything else is kept |
| GummelSingle.FillEdge | 3D/C++_implementation/Single-charge-carrier/main.cpp:324-325 | the x = y = 0 edge repeats (num_cell_x, 1); everything else is kept |
| GummelSingle.FillFull | 3D/C++_implementation/Single-charge-carrier/main.cpp:306-326 | the full tensor is the periodic halo of the solution |
| GummelSingle.Sources | 3D/C++_implementation/Single-charge-carrier/main.cpp:379-380 | the indices that enter the error are exactly those where the new p is nonzero, in order |
| GummelSingle.Compacted | 3D/C++_implementation/Single-charge-carrier/main.cpp:379-386 | one ratio is written per counted index |
| GummelSingle.ErrorVector | 3D/C++_implementation/Single-charge-carrier/main.cpp:378-386 | error_np_vector keeps one slot per row |
| GummelSingle.ErrorIsLargestRatio | 3D/C++_implementation/Single-charge-carrier/main.cpp:378-395 | error_np bounds every relative change where the new p is nonzero, is one of them or 0, and is never negative |
| GummelSingle.ErrorZeroIffUnchanged | 3D/C++_implementation/Single-charge-carrier/main.cpp:378-395 | error_np is 0 exactly when the new p equals the old p at every counted index |
| GummelSingle.ErrorSingle | 3D/C++_implementation/Single-charge-carrier/main.cpp:374-395 | the loop and max-element computation give the error metric |
| GummelSingle.ErrorCell | 3D/C++_implementation/Single-charge-carrier/main.cpp:379-386 | one pass of the error loop extends the compacted prefix and keeps the zero tail |
| GummelSingle.ErrorVectorOfFront | 3D/C++_implementation/Single-charge-carrier/main.cpp:378-386 | the compacted prefix followed by zeros is the error vector |
| GummelSingle.CompactedStep | 3D/C++_implementation/Single-charge-carrier/main.cpp:379-385 | one more index adds its ratio exactly when the new p there is nonzero |
| GummelSingle.NoGeneration | 3D/C++_implementation/Single-charge-carrier/main.cpp:335-337 | the single-carrier solve sees zero generation everywhere |
| GummelSingle.ClampAll | 3D/C++_implementation/Single-charge-carrier/main.cpp:368-371 | every entry of the new p is clamped |
| GummelSingle.Next | 3D/C++_implementation/Single-charge-carrier/main.cpp:254-449 | one iteration keeps the sizes and counts iter |
| GummelSingle.NextProperties | 3D/C++_implementation/Single-charge-carrier/main.cpp:258-408 | V is the Poisson solution at iter 0 and mixed with the old V after; p is solved on that V with no generation; the stall counter stays in range and the knobs adapt exactly on a stall; the error is non-negative and 0 exactly when the clamped p is unchanged; the new p is the clamped solution mixed with the old p under the adapted knobs |
| GummelSingle.Step | 3D/C++_implementation/Single-charge-carrier/main.cpp:258-449 | the loop body computes one iteration and leaves both full tensors as the halos of V and p |
| GummelSingle.RunFrom | 3D/C++_implementation/Single-charge-carrier/main.cpp:254 | the inner loop keeps the sizes |
| GummelSingle.RunEnds | 3D/C++_implementation/Single-charge-carrier/main.cpp:250-449 | the inner loop runs at most fuel iterations; when it stops early the error is at or below the tolerance; the stall counter stays in range |
| GummelSingle.RunBias | 3D/C++_implementation/Single-charge-carrier/main.cpp:250-450 | the while loop computes the inner run, and the full tensors hold its halos once it iterated |
| GummelSingle.Biases | 3D/C++_implementation/Single-charge-carrier/main.cpp:226-236 | one run per Va_cnt, each at Va = Va_min + increment·(Va_cnt − 1) |
| GummelSingle.BiasesChain | 3D/C++_implementation/Single-charge-carrier/main.cpp:226-251 | each bias starts from where the previous one finished, with error 1 and a zeroed stall counter |
| GummelSingle.SweepSchedule | 3D/C++_implementation/Single-charge-carrier/main.cpp:97-230 | the sweep has num_V runs, all inside [Va_min, Va_max], spaced by increment |
| GummelSingle.Initial | 3D/C++_implementation/Single-charge-carrier/main.cpp:166-203 | the starting state has num_rows entries per vector |
| GummelSingle.RunAt | 3D/C++_implementation/Single-charge-carrier/main.cpp:226-251 | one pass of the sweep loop is the head of the remaining schedule |
| GummelSingle.SweepLoop | 3D/C++_implementation/Single-charge-carrier/main.cpp:226-450 | the for loop produces the schedule of runs |
| GummelSingle.Drive | 3D/C++_implementation/Single-charge-carrier/main.cpp:97-450 | the whole program's results are the schedule from the initial state over the num_V biases |
| GummelTwo.Layered | 3D/C++_implementation/Two-charge-carriers/main.cpp:145-153 | the layered potential has num_rows + 1 entries |
| GummelTwo.LayeredLayers | 3D/C++_implementation/Two-charge-carriers/main.cpp:143-153 | each N²-block holds the bottom value plus diff times its layer, and the ramp reaches the top value one layer past N |
| GummelTwo.FillLayer | 3D/C++_implementation/Two-charge-carriers/main.cpp:147-152 | one block is set to its layer's value; the rest of the array is kept |
| GummelTwo.LayerOfBlock | 3D/C++_implementation/Two-charge-carriers/main.cpp:146-152 | every index of the k-th block belongs to layer k |
| GummelTwo.NextLayer | 3D/C++_implementation/Two-charge-carriers/main.cpp:146-153 | after each block the filled prefix holds the layered values |
| GummelTwo.LayeredArray | 3D/C++_implementation/Two-charge-carriers/main.cpp:145-153 | the array holds the layered values with slot 0 at 0 |
| GummelTwo.LayeredPotential | 3D/C++_implementation/Two-charge-carriers/main.cpp:143-153 | the initial V is the layered ramp between the electrode values |
| GummelTwo.Uniform | 3D/C++_implementation/Two-charge-carriers/main.cpp:164-167 | a 1-based vector with one value inside and 0 in slot 0 |
| GummelTwo.UniformDensities | 3D/C++_implementation/Two-charge-carriers/main.cpp:162-167 | the initial n and p are min_dense inside |
| GummelTwo.Gated | 3D/C++_implementation/Two-charge-carriers/main.cpp:262-264 | the generation rate is Photogen_scaling at every interior slot; slot 0 is kept |
| GummelTwo.GateGeneration | 3D/C++_implementation/Two-charge-carriers/main.cpp:261-264 | the loop sets the gated generation in place |
| GummelTwo.ClampTail | 3D/C++_implementation/Two-charge-carriers/main.cpp:330-333 | every interior density is clamped; slot 0 is kept |
| GummelTwo.ClampPair | 3D/C++_implementation/Two-charge-carriers/main.cpp:330-333 | the loop clamps n and p in place |
| GummelTwo.ErrorVector | 3D/C++_implementation/Two-charge-carriers/main.cpp:339-343 | error_np_vector keeps one slot per row |
| GummelTwo.ErrorIsLargestRatio | 3D/C++_implementation/Two-charge-carriers/main.cpp:336-344 | error_np bounds the relative change of n and p wherever both are nonzero, is one of them or 0, and is never negative |
| GummelTwo.ErrorZeroIffUnchanged | 3D/C++_implementation/Two-charge-carriers/main.cpp:339-344 | error_np is 0 exactly when n and p are unchanged at every counted index |
| GummelTwo.ErrorTwo | 3D/C++_implementation/Two-charge-carriers/main.cpp:336-345 | the loop and max-element computation give the joint error, and the vector is cleared afterwards |
| GummelTwo.Refill | 3D/C++_implementation/Two-charge-carriers/main.cpp:345 | std::fill clears the error vector |
| GummelTwo.OneBased | 3D/C++_implementation/Two-charge-carriers/main.cpp:239-241 | the copied solution is the 0-based one shifted into the 1-based vector, with slot 0 at 0 |
| GummelTwo.Next | 3D/C++_implementation/Two-charge-carriers/main.cpp:211-380 | one iteration keeps the sizes and counts iter |
| GummelTwo.NextProperties | 3D/C++_implementation/Two-charge-carriers/main.cpp:244-357 | V is plain at iter 0 and mixed after; generation is gated once Va_cnt > 0 with Up = Un; both clamped densities are non-negative; the error is non-negative and 0 exactly when n and p are unchanged; the stall logic stays in range and adapts the knobs exactly on a stall; the new n and p are linear_mix of the clamped solutions with the old densities under the adapted knobs |
| GummelTwo.SolveDensities | 3D/C++_implementation/Two-charge-carriers/main.cpp:270-333 | n and p are the clamped 1-based solutions |
| GummelTwo.GenerationFor | 3D/C++_implementation/Two-charge-carriers/main.cpp:261-266 | Un and Up are gated past the equilibrium run and untouched in it |
| GummelTwo.Step | 3D/C++_implementation/Two-charge-carriers/main.cpp:215-380 | the loop body computes one iteration and leaves the error vector cleared |
| GummelTwo.RunFrom | 3D/C++_implementation/Two-charge-carriers/main.cpp:211 | the inner loop keeps the sizes |
| GummelTwo.RunEnds | 3D/C++_implementation/Two-charge-carriers/main.cpp:208-380 | the inner loop runs at most fuel iterations; when it stops early the error is at or below the tolerance; the stall counter stays in range |
| GummelTwo.RunBias | 3D/C++_implementation/Two-charge-carriers/main.cpp:208-381 | the while loop computes the inner run |
| GummelTwo.Voltages | 3D/C++_implementation/Two-charge-carriers/main.cpp:188-195 | the voltage of each Va_cnt: 0 for the equilibrium run, Va_min + increment·(Va_cnt − 1) after |
| GummelTwo.SweepAsWrittenOvershoots | 3D/C++_implementation/Two-charge-carriers/main.cpp:182-194 | with the loop bound as written, the last Va exceeds Va_max |
| GummelTwo.SweepAsWrittenExample | 3D/C++_implementation/Two-charge-carriers/main.cpp:182-194 | Va_min = 0, Va_max = 1, increment = 0.5 runs at 0, 0, 0.5, 1.0 and 1.5 |
| GummelTwo.SweepInRange | 3D/C++_implementation/Two-charge-carriers/main.cpp:182-195 | with the corrected bound, after the equilibrium run every Va lies in [Va_min, Va_max], spaced by increment |
| GummelTwo.Runs | 3D/C++_implementation/Two-charge-carriers/main.cpp:182-209 | one run per Va_cnt of the range |
| GummelTwo.RunsAtVoltages | 3D/C++_implementation/Two-charge-carriers/main.cpp:188-195 | the m-th run is at the voltage of its Va_cnt |
| GummelTwo.SweepVoltages | 3D/C++_implementation/Two-charge-carriers/main.cpp:182-195 | the sweep is the equilibrium run followed by runs inside [Va_min, Va_max] |
| GummelTwo.Initial | 3D/C++_implementation/Two-charge-carriers/main.cpp:133-167 | the starting state has num_rows + 1 entries per vector |
| GummelTwo.RunAt | 3D/C++_implementation/Two-charge-carriers/main.cpp:183-211 | one pass of the sweep loop is the head of the remaining schedule |
| GummelTwo.SweepLoop | 3D/C++_implementation/Two-charge-carriers/main.cpp:182-381 | the for loop produces the schedule of runs |
| GummelTwo.InitialState | 3D/C++_implementation/Two-charge-carriers/main.cpp:133-167 | the arrays the program sets up are the initial state |
| GummelTwo.Drive | 3D/C++_implementation/Two-charge-carriers/main.cpp:79-381 | the whole program's results are the schedule from the initial state, equilibrium run first |
| Parameters.IsPositive | 3D/C++_implementation/Single-charge-carrier/parameters.cpp:78-85 | the check passes exactly for a positive input and otherwise throws the "must be positive" message |
| Parameters.IsPositiveInt | 3D/C++_implementation/Single-charge-carrier/parameters.cpp:87-94 | the integer check passes exactly for input ≥ 1 |
| Parameters.IsNegative | 3D/C++_implementation/Single-charge-carrier/parameters.cpp:96-103 | the check passes exactly for a negative input and otherwise throws the "must be negative" message |
| Parameters.IsNegativeInt | 3D/C++_implementation/Single-charge-carrier/parameters.cpp:105-113 | the integer check passes exactly for input ≤ −1 |
| Parameters.GuardsPartition | 3D/C++_implementation/Single-charge-carrier/parameters.cpp:78-113 | only 0 fails both checks; any other value passes exactly one; the int and double checks agree |
| Parameters.FileOrder | 3D/C++_implementation/Single-charge-carrier/parameters.cpp:18-57 | the values in the order the file holds them |
| Parameters.FailsAtIsFirstFailure | 3D/C++_implementation/Single-charge-carrier/parameters.cpp:15-65 | the input is valid exactly when every guarded value is positive, and otherwise the reported failure is the first guarded value that is not |
| Parameters.CellCountFits | 3D/C++_implementation/Single-charge-carrier/parameters.cpp:67-69 | the cell count is the largest whole number of cells that fits in the length |
| Parameters.OneCellFits | 3D/C++_implementation/Single-charge-carrier/parameters.cpp:67-69 | a length of at least one spacing holds at least one cell |
| Parameters.OneCellIff | 3D/C++_implementation/Single-charge-carrier/parameters.cpp:67-69 | a positive length holds at least one cell exactly when it is at least the spacing |
| Parameters.Elements | 3D/C++_implementation/Single-charge-carrier/parameters.cpp:74 | num_elements is the row count the driver uses, and at least 1 when Nx, Ny and Nz are all non-negative |
| Parameters.LoadedCounts | 3D/C++_implementation/Single-charge-carrier/parameters.cpp:67-74 | for every loaded parameter set: num_cell is the largest number of cells that fits each length, and num_elements is the row count on that box; an axis has a cell exactly when L ≥ d, and num_elements ≥ 1 exactly when every axis does (else it is 0) |
| Parameters.Parameters.ReadLengths | 3D/C++_implementation/Single-charge-carrier/parameters.cpp:18-23 | the lengths are stored, and the block throws exactly when one is not positive |
| Parameters.Parameters.ReadSpacings | 3D/C++_implementation/Single-charge-carrier/parameters.cpp:25-30 | the spacings are stored, and the block throws exactly when one is not positive |
| Parameters.Parameters.ReadMaterial | 3D/C++_implementation/Single-charge-carrier/parameters.cpp:32-42 | the material values are stored, and the block throws exactly when a guarded one is not positive |
| Parameters.Parameters.ReadSweep | 3D/C++_implementation/Single-charge-carrier/parameters.cpp:44-47 | the sweep values are stored, and the block throws exactly when increment is not positive |
| Parameters.Parameters.ReadDamping | 3D/C++_implementation/Single-charge-carrier/parameters.cpp:48-57 | the damping and tolerance values are stored, and the block throws exactly when a guarded one is not positive |
| Parameters.Parameters.ReadGeometry | 3D/C++_implementation/Single-charge-carrier/parameters.cpp:18-42 | the geometry and material blocks, throwing at the first failing guard |
| Parameters.Parameters.ReadControls | 3D/C++_implementation/Single-charge-carrier/parameters.cpp:44-57 | the sweep and damping blocks, throwing at the first failing guard |
| Parameters.Parameters.TryBlock | 3D/C++_implementation/Single-charge-carrier/parameters.cpp:15-65 | the try block throws exactly for invalid input, and otherwise leaves every value stored |
| Parameters.Parameters.DeriveCounts | 3D/C++_implementation/Single-charge-carrier/parameters.cpp:67-74 | the cell counts and num_elements follow from the lengths and spacings |
| Parameters.Parameters.Initialize | 3D/C++_implementation/Single-charge-carrier/parameters.cpp:4-76 | Initialize returns normally exactly for valid input, with every value and count set; otherwise the program exits with status 1 |

### Edge cases recorded

* With N = 1 (`num_cell` = 2) the right-hand side of the single unknown takes the
  first-cell branch of `set_rhs` only. It gets the left and bottom boundary contributions
  but not the right and top ones, whereas the cell-by-cell reference formula gives all
  four (`Stencil.SingleCellRhs`, `Stencil.SingleCellReference`). The cause is the branch
  order of `set_rhs` (continuity_n.cpp:201-235): it tests j == 1 before i == 1 and then
  i == 1 before i == N, so the one cell of an N = 1 grid never reaches the right or top
  branch. The model records this as observed behaviour of the code as written; whether
  the authors meant to support N = 1 at all is not evident from the source.
* Validation checks only that lengths and spacings are positive, so it accepts a length
  shorter than its spacing (Lx = 1, dx = 2, say). That axis then has num_cell = 0 and
  N = −1, num_elements is 0 (`Parameters.LoadedCounts`), and the drivers run on the empty
  grid whose `max_element` is undefined (see the Drive line under "## Left out").
* Every index the loops touch lies inside its array. Dafny checks each access, so the
  Bernoulli and mobility reads staying in 0..num_cell, and every triplet staying inside the
  buffer, hold by construction.

## Findings

| source | as written | input that shows it | evidently intended | confidence | as-written member | corrected member |
|---|---|---|---|---|---|---|
| 3D/C++_implementation/Two-charge-carriers/main.cpp:182 | `Va_cnt <= num_V + 1`: after the equilibrium run the sweep makes num_V + 1 runs, the last at Va_min + increment·num_V | Va_min = 0, Va_max = 1, increment = 0.5: num_V = 3 and the runs are at 0, 0, 0.5, 1.0, 1.5, so the last exceeds Va_max | `Va_cnt <= num_V`: the equilibrium run plus num_V runs inside [Va_min, Va_max], as the single-carrier driver (its main.cpp:226) does | not executed | GummelTwo.SweepAsWrittenOvershoots, GummelTwo.SweepAsWrittenExample | GummelTwo.SweepInRange, GummelTwo.SweepVoltages, GummelTwo.Drive |

`GummelTwo.SweepLoop` takes the last Va_cnt as a parameter. `GummelTwo.Drive` and
`GummelTwo.SweepVoltages` pass it the corrected bound `LastRun`, so the driver as modelled
runs the corrected sweep.

## Left out

- The sparse solves (Eigen's BiCGSTAB, SparseLU and their preconditioners) are not
  modelled: the Poisson and continuity solutions are the functions of the abstract
  `Solvers` record. The only thing assumed of them is the size of what they return.
- `setFromTriplets` is modelled by its meaning, the sum of all triplets at a position
  (`Sparse.Entry`), not by Eigen's compressed storage.
- The Poisson classes, `Continuity_p`, the utilities, recombination and photogeneration
  objects are not part of this model. The knob functions of the parameter object
  (`linear_mix`, `reduce_w`, `relax_tolerance`, `use_w_eq`, `use_w_i`,
  `use_tolerance_eq`, `use_tolerance_i`) are the abstract `Policy` record. The electrode
  boundary values (`get_V_bottomBC`, `get_p_bottomBC`, …) are functions passed in.
- Floating point: all arithmetic is on reals, so IEEE rounding, overflow and NaN are not
  modelled. `exp` is an abstract function constrained by `ExpLike`; `floor` is
  `real.Floor`.
- Input and output: opening and reading the parameter file (modelled as an `Input` record
  of the values in file order), the messages on `cerr`/`cout`, the `tolerance > 1e-5`
  warning, `JV.txt`, `write_details`, timing with `chrono`, and OpenMP parallelism.
- The 3D drivers' calls to `calculate_currents` and the total current `J_total` belong to
  classes that are not part of this model.
- GummelSingle.RunFrom, GummelTwo.RunFrom: the inner `while (error_np > tolerance)` loop
  is bounded by a `fuel` parameter, because the source loop has no bound. A run that uses
  all its fuel stops without the tolerance having been met.
- The 3D tensor `shuffle` and `reshape` of the single-carrier driver are modelled only as
  the index maps they amount to (`GummelSingle.Cell`, `GridIndex.Index3`).
- Continuity.ContinuityN.constructor: requires `num_cell >= 2`, i.e. at least one
  interior cell. A grid without interior cells has no unknowns and no system to assemble,
  so it is not modelled.
- Continuity.ContinuityN.constructor: the Eigen `resize` calls of the weight and
  current matrices leave their entries unspecified; the model starts them at 0. Only
  row and column 0 of the weights keep that start value, because setup_eqn never writes
  them and the stencil never reads them. `Continuity.ContinuityN.Reassemble` relies on
  row and column 0 being 0 to compare whole matrices.
- GummelSingle.Drive, GummelTwo.Drive: require at least one interior cell per axis.
  On an empty grid the error metric is undefined in the source: `*std::max_element` is
  taken over an empty range and dereferences `end()` (single-carrier main.cpp:395,
  two-carrier main.cpp:344).
- `setup_eqn` is modelled as `AssembleOperator` followed by `AssembleRhs`, and the reset
  of `trp_cnt` is folded into `SetBands`.
- Parameters.Parameters.Initialize: on the `exit(1)` path the contract does not state
  which members were assigned before the failing check, because the program ends there.
- The integer counts (`num_cell`, `num_elements`, `Va_cnt`) are unbounded integers, so
  32-bit overflow is not modelled. The parameter values are reals throughout.
- The two-carrier `parameters.cpp` is not part of this model. The single-carrier one
  stands for both.
- The two-carrier driver refreshes the side boundaries of the Poisson and continuity
  objects from the current solution (main.cpp:250-254 and 362-375). Those objects are not
  part of this model, so the refresh is absorbed into the `Solvers` functions, which
  receive the current V, n and p.
