/** The 3D two-carrier Gummel driver (main of the Two-charge-carriers program): the layered
    initial potential and uniform carrier densities, the generation-rate gate, the clamping
    of both densities, the two-species error metric, one iteration of the inner loop, the
    inner loop, and the equilibrium-plus-sweep schedule.

    The driver's vectors are indexed from 1, as in the source: a vector of num_rows + 1
    entries whose slot 0 is never used (it keeps the 0 of std::vector's initialisation).
    The Poisson and the two continuity solves are abstract functions (Solvers). */
module GummelTwo {
  import opened GridIndex
  import opened Bernoulli
  import opened Gummel

  // ---------------------------------------------------------------------------
  // Sizes and the initial state

  /** num_rows = N^3 for N = num_cell - 1 interior points per axis. */
  function Rows(n: int): int
  {
    n * n * n
  }

  /** The z layer, 1-based, of 1-based entry m when each layer holds nn = N^2 entries. */
  function Layer(nn: int, m: int): int
    requires nn > 0
  {
    (m - 1) / nn + 1
  }

  /** The layered initial potential: slot 0 unused, entry m holds
      V_bottomBC(0, 0) + diff * (layer of m). */
  function Layered(n: int, bottom00: real, diff: real): (v: seq<real>)
    requires n >= 1
    ensures |v| == Rows(n) + 1
  {
    seq(Rows(n) + 1, m => if m == 0 then 0.0 else bottom00 + diff * Layer(n * n, m) as real)
  }

  /** diff = (V_topBC(0, 0) - V_bottomBC(0, 0)) / num_cell, num_cell = N + 1. */
  function LayerStep(n: int, bottom00: real, top00: real): real
    requires n >= 1
  {
    (top00 - bottom00) / (n + 1) as real
  }

  /** All N^2 entries of layer k, (k - 1) N^2 + 1 .. k N^2, hold V_bottomBC(0, 0) + diff * k;
      one layer further, at k = num_cell, the ramp would meet the top electrode. */
  lemma LayeredLayers(n: int, bottom00: real, top00: real, k: int, q: int)
    requires n >= 1 && 1 <= k <= n && 1 <= q <= n * n
    ensures 1 <= (k - 1) * (n * n) + q <= Rows(n)
    ensures Layered(n, bottom00, LayerStep(n, bottom00, top00))[(k - 1) * (n * n) + q] ==
              bottom00 + LayerStep(n, bottom00, top00) * k as real
    ensures bottom00 + LayerStep(n, bottom00, top00) * (n + 1) as real == top00
  {
    var nn := n * n;
    MulMonotone(k, n, nn);
    assert Rows(n) == n * nn;
    MulMonotone(0, k - 1, nn);
    DivModUnique((k - 1) * nn + q - 1, nn, k - 1, q - 1);
    var d := LayerStep(n, bottom00, top00);
    assert d * (n + 1) as real == top00 - bottom00;
  }

  /** The body of the initial potential loop for one layer: the entry after start gets
      value, and each of the next N^2 - 1 entries copies the one before it. */
  method FillLayer(va: array<real>, start: int, nn: int, value: real)
    requires 0 <= start && nn >= 1 && start + nn < va.Length
    modifies va
    ensures forall m :: 0 <= m < va.Length ==> va[m] == if start < m <= start + nn then value else old(va[m])
  {
    var index := start + 1;
    va[index] := value;
    var i := 2;
    while i <= nn
      invariant 2 <= i <= nn + 1 && index == start + i - 1
      invariant forall m :: 0 <= m < va.Length ==> va[m] == if start < m <= index then value else old(va[m])
    {
      index := index + 1;
      va[index] := va[index - 1];
      i := i + 1;
    }
  }

  /** The entries (k - 1) N^2 + 1 .. k N^2 lie in layer k. */
  lemma LayerOfBlock(nn: int, k: int, m: int)
    requires nn >= 1 && k >= 1 && (k - 1) * nn < m <= k * nn
    ensures Layer(nn, m) == k
  {
    DivModUnique(m - 1, nn, k - 1, m - 1 - (k - 1) * nn);
  }

  /** One pass of the outer initial potential loop: layer k filled after layers 1..k-1. */
  method NextLayer(va: array<real>, nn: int, k: int, index: int, bottom00: real, diff: real)
    requires nn >= 1 && k >= 1 && index == (k - 1) * nn && index + nn < va.Length
    requires forall m :: 1 <= m <= index ==> va[m] == bottom00 + diff * Layer(nn, m) as real
    modifies va
    ensures va[0] == old(va[0])
    ensures forall m :: 1 <= m <= index + nn ==> va[m] == bottom00 + diff * Layer(nn, m) as real
  {
    FillLayer(va, index, nn, bottom00 + diff * k as real);
    forall m | 1 <= m <= index + nn
      ensures va[m] == bottom00 + diff * Layer(nn, m) as real
    {
      if m > index {
        LayerOfBlock(nn, k, m);
      }
    }
  }

  /** The initial potential loops on V: per layer k one entry bottomBC(0, 0) + diff * k,
      then N^2 - 1 copies of the entry before. */
  method LayeredArray(n: int, bottom00: real, diff: real) returns (va: array<real>)
    requires n >= 1
    ensures fresh(va) && va.Length == Rows(n) + 1 && va[0] == 0.0
    ensures forall m :: 1 <= m <= Rows(n) ==> va[m] == bottom00 + diff * Layer(n * n, m) as real
  {
    var nn := n * n;
    assert Rows(n) == n * nn;
    va := new real[Rows(n) + 1](_ => 0.0);
    var index := 0;
    var k := 1;
    while k <= n
      invariant 1 <= k <= n + 1 && index == (k - 1) * nn
      invariant va[0] == 0.0
      invariant forall m :: 1 <= m <= index ==> va[m] == bottom00 + diff * Layer(nn, m) as real
    {
      MulMonotone(k, n, nn);
      NextLayer(va, nn, k, index, bottom00, diff);
      index := index + nn;
      k := k + 1;
    }
  }

  /** The initial potential as a vector: the layered ramp. */
  method LayeredPotential(n: int, bottom00: real, top00: real) returns (v: seq<real>)
    requires n >= 1
    ensures v == Layered(n, bottom00, LayerStep(n, bottom00, top00))
  {
    var diff := LayerStep(n, bottom00, top00);
    var va := LayeredArray(n, bottom00, diff);
    v := va[..];
    forall m | 0 <= m < |v|
      ensures v[m] == Layered(n, bottom00, diff)[m]
    {
      if m > 0 {
        assert v[m] == va[m];
      }
    }
  }

  /** A 1-based vector of num_rows entries all equal to x (slot 0 at 0). */
  function Uniform(rows: nat, x: real): (u: seq<real>)
    ensures |u| == rows + 1 && u[0] == 0.0 && forall i :: 1 <= i <= rows ==> u[i] == x
  {
    seq(rows + 1, i => if i == 0 then 0.0 else x)
  }

  /** The initial density loop: n[i] = p[i] = min_dense for i = 1..num_rows. */
  method UniformDensities(rows: nat, minDense: real) returns (n: seq<real>, p: seq<real>)
    ensures n == Uniform(rows, minDense) && p == Uniform(rows, minDense)
  {
    var na := new real[rows + 1](_ => 0.0);
    var pa := new real[rows + 1](_ => 0.0);
    var i := 1;
    while i <= rows
      invariant 1 <= i <= rows + 1
      invariant na[0] == 0.0 && pa[0] == 0.0
      invariant forall m :: 1 <= m < i ==> na[m] == minDense && pa[m] == minDense
      invariant forall m :: i <= m <= rows ==> na[m] == 0.0
    {
      na[i] := minDense;
      pa[i] := minDense;
      i := i + 1;
    }
    n, p := na[..], pa[..];
    assert n == Uniform(rows, minDense) && p == Uniform(rows, minDense);
  }

  // ---------------------------------------------------------------------------
  // The generation rate and the clamping

  /** Un[i] = Photogen_scaling for i = 1..num_rows; slot 0 kept. */
  function Gated(un: seq<real>, scaling: real): (g: seq<real>)
    requires |un| > 0
    ensures |g| == |un| && g[0] == un[0] && forall i :: 1 <= i < |un| ==> g[i] == scaling
  {
    seq(|un|, i requires 0 <= i < |un| => if i == 0 then un[0] else scaling)
  }

  /** The generation-rate loop, in place on Un. */
  method GateGeneration(un: array<real>, scaling: real)
    requires un.Length > 0
    modifies un
    ensures un[..] == Gated(old(un[..]), scaling)
  {
    var i := 1;
    while i < un.Length
      invariant 1 <= i <= un.Length
      invariant forall m :: 0 <= m < un.Length ==> un[m] == if 1 <= m < i then scaling else old(un[m])
    {
      un[i] := scaling;
      i := i + 1;
    }
    assert un[..] == Gated(old(un[..]), scaling);
  }

  /** newn or newp after the clamping loop over 1..num_rows. */
  function ClampTail(s: seq<real>): (c: seq<real>)
    requires |s| > 0
    ensures |c| == |s| && c[0] == s[0] && forall i :: 1 <= i < |s| ==> c[i] == Clamped(s[i])
  {
    seq(|s|, i requires 0 <= i < |s| => if i == 0 then s[0] else Clamped(s[i]))
  }

  /** The clamping loop: one pass over 1..num_rows setting negative newp and newn to 0. */
  method ClampPair(newp: array<real>, newn: array<real>)
    requires newp.Length == newn.Length > 0 && newp != newn
    modifies newp, newn
    ensures newp[..] == ClampTail(old(newp[..])) && newn[..] == ClampTail(old(newn[..]))
  {
    var i := 1;
    while i < newp.Length
      invariant 1 <= i <= newp.Length
      invariant forall m :: 0 <= m < newp.Length ==> newp[m] == if 1 <= m < i then Clamped(old(newp[m])) else old(newp[m])
      invariant forall m :: 0 <= m < newn.Length ==> newn[m] == if 1 <= m < i then Clamped(old(newn[m])) else old(newn[m])
    {
      if newp[i] < 0.0 {
        newp[i] := 0.0;
      }
      if newn[i] < 0.0 {
        newn[i] := 0.0;
      }
      i := i + 1;
    }
    assert newp[..] == ClampTail(old(newp[..]));
    assert newn[..] == ClampTail(old(newn[..]));
  }

  // ---------------------------------------------------------------------------
  // The error metric

  /** (|newp - oldp| + |newn - oldn|) / |oldp + oldn| for a cell where both new densities are
      positive; with both positive the numerator vanishes only if the old sum does not. */
  function Ratio(np: real, nn: real, op: real, on: real): ExtReal
    requires np > 0.0 && nn > 0.0
  {
    Quotient(Abs(np - op) + Abs(nn - on), Abs(op + on))
  }

  /** Cell i qualifies: both clamped new densities are not 0. */
  predicate Counts(newp: seq<real>, newn: seq<real>, i: int)
    requires 0 <= i < |newp| && i < |newn|
  {
    newp[i] != 0.0 && newn[i] != 0.0
  }

  /** Both vectors are 1-based of one length and clamped: not negative at 1..num_rows. */
  predicate ClampedPair(newp: seq<real>, newn: seq<real>)
  {
    |newp| == |newn| > 1 && forall i :: 1 <= i < |newp| ==> newp[i] >= 0.0 && newn[i] >= 0.0
  }

  /** error_np_vector: slot i holds the ratio of a qualifying cell i and 0 otherwise (the
      vector is all 0 when the loop starts). */
  function ErrorVector(newp: seq<real>, newn: seq<real>, oldp: seq<real>, oldn: seq<real>): (e: seq<ExtReal>)
    requires ClampedPair(newp, newn) && |oldp| == |oldn| == |newp|
    ensures |e| == |newp|
  {
    seq(|newp|, i requires 0 <= i < |newp| =>
      if i >= 1 && Counts(newp, newn, i) then Ratio(newp[i], newn[i], oldp[i], oldn[i]) else Finite(0.0))
  }

  /** error_np = *max_element(error_np_vector.begin() + 1, end()): slot 0 is left out. */
  function ErrorMetric(newp: seq<real>, newn: seq<real>, oldp: seq<real>, oldn: seq<real>): ExtReal
    requires ClampedPair(newp, newn) && |oldp| == |oldn| == |newp|
  {
    MaxElement(ErrorVector(newp, newn, oldp, oldn)[1..])
  }

  /** The error bounds the ratio of every qualifying cell in 1..num_rows, is attained by one
      of them or is 0, and is never negative. */
  lemma ErrorIsLargestRatio(newp: seq<real>, newn: seq<real>, oldp: seq<real>, oldn: seq<real>)
    requires ClampedPair(newp, newn) && |oldp| == |oldn| == |newp|
    ensures forall i :: 1 <= i < |newp| && Counts(newp, newn, i) ==>
              !Below(ErrorMetric(newp, newn, oldp, oldn), Ratio(newp[i], newn[i], oldp[i], oldn[i]))
    ensures ErrorMetric(newp, newn, oldp, oldn) == Finite(0.0) ||
              exists i :: 1 <= i < |newp| && Counts(newp, newn, i) &&
                ErrorMetric(newp, newn, oldp, oldn) == Ratio(newp[i], newn[i], oldp[i], oldn[i])
    ensures !Below(ErrorMetric(newp, newn, oldp, oldn), Finite(0.0))
  {
    var e := ErrorVector(newp, newn, oldp, oldn)[1..];
    MaxElementIsMaximum(e);
    forall i | 1 <= i < |newp| && Counts(newp, newn, i)
      ensures !Below(MaxElement(e), Ratio(newp[i], newn[i], oldp[i], oldn[i]))
    {
      assert e[i - 1] == Ratio(newp[i], newn[i], oldp[i], oldn[i]);
    }
    var at :| 0 <= at < |e| && MaxElement(e) == e[at];
    assert e[at] == ErrorVector(newp, newn, oldp, oldn)[at + 1];
    MaxElementNonNegative(e);
  }

  /** The error is 0 exactly when every qualifying cell kept both its densities. */
  lemma ErrorZeroIffUnchanged(newp: seq<real>, newn: seq<real>, oldp: seq<real>, oldn: seq<real>)
    requires ClampedPair(newp, newn) && |oldp| == |oldn| == |newp|
    ensures ErrorMetric(newp, newn, oldp, oldn) == Finite(0.0) <==>
              forall i :: 1 <= i < |newp| && Counts(newp, newn, i) ==> newp[i] == oldp[i] && newn[i] == oldn[i]
  {
    ErrorIsLargestRatio(newp, newn, oldp, oldn);
    if ErrorMetric(newp, newn, oldp, oldn) == Finite(0.0) {
      forall i | 1 <= i < |newp| && Counts(newp, newn, i)
        ensures newp[i] == oldp[i] && newn[i] == oldn[i]
      {
        var q := Ratio(newp[i], newn[i], oldp[i], oldn[i]);
        assert !Below(Finite(0.0), q);
      }
    }
    if forall i :: 1 <= i < |newp| && Counts(newp, newn, i) ==> newp[i] == oldp[i] && newn[i] == oldn[i] {
      var e := ErrorVector(newp, newn, oldp, oldn)[1..];
      forall m | 0 <= m < |e|
        ensures e[m] == Finite(0.0)
      {
        if Counts(newp, newn, m + 1) {
          var q := Ratio(newp[m + 1], newn[m + 1], oldp[m + 1], oldn[m + 1]);
          assert q.Finite? && q.r * Abs(oldp[m + 1] + oldn[m + 1]) == 0.0;
        }
      }
      assert e == Zeros(|e|);
      MaxElementOfZeros(|e|);
    }
  }

  /** The error loop on the driver's error_np_vector, which is all 0 on entry: fill the
      qualifying slots, take the largest entry past slot 0, refill with 0. */
  method ErrorTwo(newp: seq<real>, newn: seq<real>, oldp: seq<real>, oldn: seq<real>, errVec: array<ExtReal>)
    returns (e: ExtReal)
    requires ClampedPair(newp, newn) && |oldp| == |oldn| == |newp| == errVec.Length
    requires Cleared(errVec)
    modifies errVec
    ensures e == ErrorMetric(newp, newn, oldp, oldn)
    ensures Cleared(errVec)
  {
    var i := 1;
    while i < errVec.Length
      invariant 1 <= i <= errVec.Length
      invariant forall m :: 0 <= m < errVec.Length ==>
                  errVec[m] == if m < i then ErrorVector(newp, newn, oldp, oldn)[m] else Finite(0.0)
    {
      if newp[i] != 0.0 && newn[i] != 0.0 {
        errVec[i] := Ratio(newp[i], newn[i], oldp[i], oldn[i]);
      }
      i := i + 1;
    }
    assert errVec[1..] == ErrorVector(newp, newn, oldp, oldn)[1..];
    e := MaxElement(errVec[1..]);
    Refill(errVec);
  }

  /** error_np_vector holds only zeros. */
  predicate Cleared(errVec: array<ExtReal>)
    reads errVec
  {
    forall i :: 0 <= i < errVec.Length ==> errVec[i] == Finite(0.0)
  }

  /** std::fill(error_np_vector.begin(), end(), 0.0). */
  method Refill(errVec: array<ExtReal>)
    modifies errVec
    ensures Cleared(errVec)
  {
    var i := 0;
    while i < errVec.Length
      invariant 0 <= i <= errVec.Length
      invariant forall m :: 0 <= m < i ==> errVec[m] == Finite(0.0)
    {
      errVec[i] := Finite(0.0);
      i := i + 1;
    }
  }

  // ---------------------------------------------------------------------------
  // One iteration of the inner loop

  /** What the driver obtains from the objects it drives: the Poisson solution (0-based,
      num_rows entries) for a bias, the potential whose faces set the side boundaries, and
      the densities n and p; the electron and hole solutions for a bias, potential,
      generation rate and density; the electrode values V_bottomBC / V_topBC at a bias,
      n_bottomBC and p_topBC. */
  datatype Solvers = Solvers(poisson: (real, seq<real>, seq<real>, seq<real>) -> seq<real>,
                             electron: (real, seq<real>, seq<real>, seq<real>) -> seq<real>,
                             hole: (real, seq<real>, seq<real>, seq<real>) -> seq<real>,
                             vBottom: real -> (int, int) -> real, vTop: real -> (int, int) -> real,
                             nBottom: (int, int) -> real, pTop: (int, int) -> real)

  /** The only fact assumed of the solvers: given 1-based vectors of num_rows + 1 entries
      they answer with num_rows entries. */
  ghost predicate SolversShaped(sol: Solvers, rows: int)
  {
    (forall va, v, n, p :: |v| == rows + 1 && |n| == rows + 1 && |p| == rows + 1 ==> |sol.poisson(va, v, n, p)| == rows) &&
    (forall va, v, u, d :: |v| == rows + 1 && |u| == rows + 1 && |d| == rows + 1 ==> |sol.electron(va, v, u, d)| == rows) &&
    (forall va, v, u, d :: |v| == rows + 1 && |u| == rows + 1 && |d| == rows + 1 ==> |sol.hole(va, v, u, d)| == rows)
  }

  /** not_cnv_cnt may pass 2000 before the knobs are adapted. */
  const StallLimit := 2000

  /** The variables the inner loop carries: V, n, p, Un, Up, error_np, not_cnv_cnt, iter and
      the knobs of params. */
  datatype Iterate = Iterate(v: seq<real>, n: seq<real>, p: seq<real>, un: seq<real>, up: seq<real>,
                             err: ExtReal, stall: int, iter: nat, knobs: Knobs)

  predicate Sized(st: Iterate, rows: int)
  {
    |st.v| == rows + 1 && |st.n| == rows + 1 && |st.p| == rows + 1 && |st.un| == rows + 1 && |st.up| == rows + 1
  }

  /** The context of one bias: the number of interior points per axis, Va_cnt, Va and
      Photogen_scaling. */
  datatype Bias = Bias(n: int, vaCnt: int, va: real, scaling: real)

  ghost predicate Fits(pol: Policy, sol: Solvers, n: int, st: Iterate)
  {
    n >= 1 && Sized(st, Rows(n)) && SolversShaped(sol, Rows(n)) && MixKeepsSize(pol, Rows(n) + 1)
  }

  /** A 0-based solution copied into a 1-based vector: newV[i] = soln(i - 1), slot 0 at 0. */
  function OneBased(soln: seq<real>): (v: seq<real>)
    ensures |v| == |soln| + 1 && v[0] == 0.0 && forall i :: 1 <= i <= |soln| ==> v[i] == soln[i - 1]
  {
    [0.0] + soln
  }

  /** One pass of the body of "while (error_np > params.tolerance)": solve Poisson; take the
      solution as V on the first iteration and mix it with the old V afterwards; past the
      equilibrium run set the generation rate; solve for n and p; clamp both; measure the
      change; bump the stall counter and adapt w and the tolerance past the limit; mix p,
      then n, under the knobs as they now are. */
  function Next(pol: Policy, sol: Solvers, bs: Bias, st: Iterate): (st': Iterate)
    requires Fits(pol, sol, bs.n, st)
    ensures Sized(st', Rows(bs.n)) && st'.iter == st.iter + 1
  {
    var newV := OneBased(sol.poisson(bs.va, st.v, st.n, st.p));
    var v := if st.iter > 0 then pol.mix(st.knobs, newV, st.v) else newV;
    var un := if bs.vaCnt > 0 then Gated(st.un, bs.scaling) else st.un;
    var up := if bs.vaCnt > 0 then un else st.up;
    var newn := ClampTail(OneBased(sol.electron(bs.va, v, un, st.n)));
    var newp := ClampTail(OneBased(sol.hole(bs.va, v, up, st.p)));
    var err := ErrorMetric(newp, newn, st.p, st.n);
    var knobs := if Stalls(StallLimit, st.stall, err, st.err) then Adapt(pol, st.knobs) else st.knobs;
    Iterate(v, pol.mix(knobs, newn, st.n), pol.mix(knobs, newp, st.p), un, up, err,
            StallCount(StallLimit, st.stall, err, st.err), st.iter + 1, knobs)
  }

  /** The clamped solutions an iteration measures. */
  function NewN(pol: Policy, sol: Solvers, bs: Bias, st: Iterate): seq<real>
    requires Fits(pol, sol, bs.n, st)
  {
    ClampTail(OneBased(sol.electron(bs.va, Next(pol, sol, bs, st).v, Next(pol, sol, bs, st).un, st.n)))
  }

  function NewP(pol: Policy, sol: Solvers, bs: Bias, st: Iterate): seq<real>
    requires Fits(pol, sol, bs.n, st)
  {
    ClampTail(OneBased(sol.hole(bs.va, Next(pol, sol, bs, st).v, Next(pol, sol, bs, st).up, st.p)))
  }

  /** An iteration: V is the plain solution at iter 0 and mixed with the old V after; the
      generation rate is Photogen_scaling inside once Va_cnt > 0, with Up = Un, and left as
      it was in the equilibrium run; both clamped densities are never negative; the
      measured change is never negative and is 0 exactly when both agree with the old
      densities on every qualifying cell; not_cnv_cnt stays in 0..2000 and the knobs adapt
      exactly on a stall; n and p are always linear_mix of the clamped solutions with the
      old densities, under the knobs as adapted in this iteration. */
  lemma NextProperties(pol: Policy, sol: Solvers, bs: Bias, st: Iterate)
    requires Fits(pol, sol, bs.n, st) && 0 <= st.stall <= StallLimit
    ensures var newV := OneBased(sol.poisson(bs.va, st.v, st.n, st.p));
            Next(pol, sol, bs, st).v == if st.iter == 0 then newV else pol.mix(st.knobs, newV, st.v)
    ensures bs.vaCnt > 0 ==>
              Next(pol, sol, bs, st).up == Next(pol, sol, bs, st).un &&
              forall i :: 1 <= i <= Rows(bs.n) ==> Next(pol, sol, bs, st).un[i] == bs.scaling
    ensures bs.vaCnt <= 0 ==> Next(pol, sol, bs, st).un == st.un && Next(pol, sol, bs, st).up == st.up
    ensures forall i :: 1 <= i <= Rows(bs.n) ==> NewN(pol, sol, bs, st)[i] >= 0.0 && NewP(pol, sol, bs, st)[i] >= 0.0
    ensures !Below(Next(pol, sol, bs, st).err, Finite(0.0))
    ensures Next(pol, sol, bs, st).err == Finite(0.0) <==>
              var newp, newn := NewP(pol, sol, bs, st), NewN(pol, sol, bs, st);
              forall i :: 1 <= i <= Rows(bs.n) && Counts(newp, newn, i) ==> newp[i] == st.p[i] && newn[i] == st.n[i]
    ensures 0 <= Next(pol, sol, bs, st).stall <= StallLimit
    ensures Next(pol, sol, bs, st).knobs ==
              if Stalls(StallLimit, st.stall, Next(pol, sol, bs, st).err, st.err) then Adapt(pol, st.knobs) else st.knobs
    ensures Next(pol, sol, bs, st).n == pol.mix(Next(pol, sol, bs, st).knobs, NewN(pol, sol, bs, st), st.n)
    ensures Next(pol, sol, bs, st).p == pol.mix(Next(pol, sol, bs, st).knobs, NewP(pol, sol, bs, st), st.p)
  {
    var st' := Next(pol, sol, bs, st);
    var newp, newn := NewP(pol, sol, bs, st), NewN(pol, sol, bs, st);
    Index3InRange(bs.n, bs.n, bs.n, 0, 0, 0);
    assert st'.err == ErrorMetric(newp, newn, st.p, st.n);
    StallCountStep(StallLimit, st.stall, st'.err, st.err);
    ErrorIsLargestRatio(newp, newn, st.p, st.n);
    ErrorZeroIffUnchanged(newp, newn, st.p, st.n);
  }

  /** The solves and the clamping of one iteration, on the driver's newn / newp buffers. */
  method SolveDensities(sol: Solvers, bs: Bias, v: seq<real>, un: seq<real>, up: seq<real>,
                        n: seq<real>, p: seq<real>) returns (newn: seq<real>, newp: seq<real>)
    requires bs.n >= 1 && SolversShaped(sol, Rows(bs.n))
    requires |v| == |un| == |up| == |n| == |p| == Rows(bs.n) + 1
    ensures newn == ClampTail(OneBased(sol.electron(bs.va, v, un, n)))
    ensures newp == ClampTail(OneBased(sol.hole(bs.va, v, up, p)))
  {
    var rows := Rows(bs.n);
    var sn := OneBased(sol.electron(bs.va, v, un, n));
    var sp := OneBased(sol.hole(bs.va, v, up, p));
    var na := new real[rows + 1](i requires 0 <= i <= rows => sn[i]);
    var pa := new real[rows + 1](i requires 0 <= i <= rows => sp[i]);
    assert na[..] == sn && pa[..] == sp;
    ClampPair(pa, na);
    newn, newp := na[..], pa[..];
  }

  /** The generation-rate gate of one iteration, on the driver's Un. */
  method GenerationFor(bs: Bias, un: seq<real>, up: seq<real>) returns (un': seq<real>, up': seq<real>)
    requires |un| > 0
    ensures un' == (if bs.vaCnt > 0 then Gated(un, bs.scaling) else un)
    ensures up' == (if bs.vaCnt > 0 then un' else up)
  {
    un', up' := un, up;
    if bs.vaCnt > 0 {
      var ua := new real[|un|](i requires 0 <= i < |un| => un[i]);
      assert ua[..] == un;
      GateGeneration(ua, bs.scaling);
      un' := ua[..];
      up' := un';
    }
  }

  /** The body of the inner loop on the driver's buffers; error_np_vector is all 0 before
      and after. */
  method Step(pol: Policy, sol: Solvers, bs: Bias, st: Iterate, errVec: array<ExtReal>) returns (st': Iterate)
    requires Fits(pol, sol, bs.n, st) && errVec.Length == Rows(bs.n) + 1
    requires Cleared(errVec)
    modifies errVec
    ensures st' == Next(pol, sol, bs, st)
    ensures Cleared(errVec)
  {
    var newV := OneBased(sol.poisson(bs.va, st.v, st.n, st.p));
    var v;
    if st.iter > 0 {
      v := pol.mix(st.knobs, newV, st.v);
    } else {
      v := newV;
    }
    var un, up := GenerationFor(bs, st.un, st.up);
    var newn, newp := SolveDensities(sol, bs, v, un, up, st.n, st.p);
    var err := ErrorTwo(newp, newn, st.p, st.n, errVec);
    var stall := st.stall;
    var knobs := st.knobs;
    if !Below(err, st.err) {
      stall := stall + 1;
    }
    if stall > StallLimit {
      knobs := pol.reduceW(knobs);
      knobs := pol.relaxTolerance(knobs);
      stall := 0;
    }
    var p := pol.mix(knobs, newp, st.p);
    var n := pol.mix(knobs, newn, st.n);
    st' := Iterate(v, n, p, un, up, err, stall, st.iter + 1, knobs);
  }

  // ---------------------------------------------------------------------------
  // The inner loop and the sweep

  /** The inner loop from st, given at most fuel more iterations. */
  function RunFrom(pol: Policy, sol: Solvers, bs: Bias, st: Iterate, fuel: nat): (fin: Iterate)
    requires Fits(pol, sol, bs.n, st)
    ensures Sized(fin, Rows(bs.n))
    decreases fuel
  {
    if !Exceeds(st.err, st.knobs.tolerance) || fuel == 0 then st
    else RunFrom(pol, sol, bs, Next(pol, sol, bs, st), fuel - 1)
  }

  /** The loop runs no more than fuel iterations and ends converged or with its fuel spent;
      not_cnv_cnt stays within 0..2000 throughout. */
  lemma {:induction false} RunEnds(pol: Policy, sol: Solvers, bs: Bias, st: Iterate, fuel: nat)
    requires Fits(pol, sol, bs.n, st) && 0 <= st.stall <= StallLimit
    ensures st.iter <= RunFrom(pol, sol, bs, st, fuel).iter <= st.iter + fuel
    ensures RunFrom(pol, sol, bs, st, fuel).iter < st.iter + fuel ==>
              !Exceeds(RunFrom(pol, sol, bs, st, fuel).err, RunFrom(pol, sol, bs, st, fuel).knobs.tolerance)
    ensures 0 <= RunFrom(pol, sol, bs, st, fuel).stall <= StallLimit
    decreases fuel
  {
    if Exceeds(st.err, st.knobs.tolerance) && fuel > 0 {
      NextProperties(pol, sol, bs, st);
      RunEnds(pol, sol, bs, Next(pol, sol, bs, st), fuel - 1);
    }
  }

  /** The inner while loop, bounded by fuel. */
  method RunBias(pol: Policy, sol: Solvers, bs: Bias, start: Iterate, fuel: nat, errVec: array<ExtReal>)
    returns (fin: Iterate)
    requires Fits(pol, sol, bs.n, start) && errVec.Length == Rows(bs.n) + 1
    requires Cleared(errVec)
    modifies errVec
    ensures fin == RunFrom(pol, sol, bs, start, fuel)
    ensures Cleared(errVec)
  {
    fin := start;
    var left: nat := fuel;
    while Exceeds(fin.err, fin.knobs.tolerance) && left > 0
      invariant Fits(pol, sol, bs.n, fin)
      invariant RunFrom(pol, sol, bs, fin, left) == RunFrom(pol, sol, bs, start, fuel)
      invariant Cleared(errVec)
      decreases left
    {
      fin := Step(pol, sol, bs, fin, errVec);
      left := left - 1;
    }
  }

  /** The bias range of params. */
  datatype Sweep = Sweep(vaMin: real, vaMax: real, increment: real)

  /** Va at Va_cnt: 0 for the equilibrium run, Va_min + increment * (Va_cnt - 1) after. */
  function Voltage(sw: Sweep, vaCnt: int): real
  {
    if vaCnt == 0 then 0.0 else Gummel.Bias(sw.vaMin, sw.increment, vaCnt)
  }

  /** The voltages of the runs Va_cnt = 0..last. */
  function Voltages(sw: Sweep, last: int): (vs: seq<real>)
    requires last >= -1
    ensures |vs| == last + 1 && forall c :: 0 <= c <= last ==> vs[c] == Voltage(sw, c)
  {
    seq(last + 1, c => Voltage(sw, c))
  }

  /** The last Va_cnt of the sweep as written: "Va_cnt <= num_V + 1". */
  function LastAsWritten(sw: Sweep): int
    requires sw.increment > 0.0
  {
    BiasCount(sw.vaMin, sw.vaMax, sw.increment) + 1
  }

  /** The last Va_cnt that keeps the sweep within [Va_min, Va_max]: num_V. */
  function LastRun(sw: Sweep): int
    requires sw.increment > 0.0
  {
    BiasCount(sw.vaMin, sw.vaMax, sw.increment)
  }

  /** As written, the last run of the sweep is at a voltage above Va_max. */
  lemma SweepAsWrittenOvershoots(sw: Sweep)
    requires sw.increment > 0.0 && sw.vaMax >= sw.vaMin
    ensures LastAsWritten(sw) >= 2
    ensures Voltages(sw, LastAsWritten(sw))[LastAsWritten(sw)] > sw.vaMax
  {
    BiasPastSweep(sw.vaMin, sw.vaMax, sw.increment);
  }

  /** With Va_min = 0, Va_max = 1 and increment = 0.5, num_V = 3 and the sweep as written
      ends with a run at Va = 1.5. */
  lemma SweepAsWrittenExample()
    ensures LastAsWritten(Sweep(0.0, 1.0, 0.5)) == 4
    ensures Voltages(Sweep(0.0, 1.0, 0.5), 4) == [0.0, 0.0, 0.5, 1.0, 1.5]
  {
    assert ((1.0 - 0.0) / 0.5).Floor == 2;
  }

  /** The corrected sweep: the equilibrium run at 0, then num_V runs from Va_min in steps
      of increment, none above Va_max. */
  lemma SweepInRange(sw: Sweep, c: int)
    requires sw.increment > 0.0 && 1 <= c <= LastRun(sw)
    ensures Voltages(sw, LastRun(sw))[0] == 0.0
    ensures sw.vaMin <= Voltages(sw, LastRun(sw))[c] <= sw.vaMax
    ensures c < LastRun(sw) ==> Voltages(sw, LastRun(sw))[c + 1] == Voltages(sw, LastRun(sw))[c] + sw.increment
  {
    BiasesInRange(sw.vaMin, sw.vaMax, sw.increment, c);
  }

  /** What one run of the sweep leaves: its Va and the loop's final variables. */
  datatype BiasRun = BiasRun(va: real, fin: Iterate)

  /** The variables with which the inner loop starts at Va_cnt: everything carried over,
      error_np = 1, iter = 0, not_cnv_cnt = 0; the equilibrium tolerance and w at
      Va_cnt = 0, the initial ones restored at Va_cnt = 1. */
  function BiasStart(pol: Policy, vaCnt: int, prev: Iterate): Iterate
  {
    var k0 := if vaCnt == 0 then pol.useWEq(pol.useToleranceEq(prev.knobs)) else prev.knobs;
    var k1 := if vaCnt == 1 then pol.useWI(pol.useToleranceI(k0)) else k0;
    Iterate(prev.v, prev.n, prev.p, prev.un, prev.up, Finite(1.0), 0, 0, k1)
  }

  /** The runs Va_cnt = from..last, each starting where the previous one finished. */
  function Runs(pol: Policy, sol: Solvers, n: int, sw: Sweep, scaling: real, from: int, last: int,
                prev: Iterate, fuel: nat): (runs: seq<BiasRun>)
    requires Fits(pol, sol, n, prev)
    ensures |runs| == if from <= last then last - from + 1 else 0
    decreases last - from
  {
    if from > last then []
    else
      var bs := Bias(n, from, Voltage(sw, from), scaling);
      var fin := RunFrom(pol, sol, bs, BiasStart(pol, from, prev), fuel);
      [BiasRun(bs.va, fin)] + Runs(pol, sol, n, sw, scaling, from + 1, last, fin, fuel)
  }

  /** Run m of the sweep from Va_cnt = from is at Voltage(from + m). */
  lemma {:induction false} RunsAtVoltages(pol: Policy, sol: Solvers, n: int, sw: Sweep, scaling: real, from: int,
                                          last: int, prev: Iterate, fuel: nat, m: int)
    requires Fits(pol, sol, n, prev)
    requires 0 <= m < |Runs(pol, sol, n, sw, scaling, from, last, prev, fuel)|
    ensures Runs(pol, sol, n, sw, scaling, from, last, prev, fuel)[m].va == Voltage(sw, from + m)
    decreases m
  {
    if m > 0 {
      var bs := Bias(n, from, Voltage(sw, from), scaling);
      var fin := RunFrom(pol, sol, bs, BiasStart(pol, from, prev), fuel);
      RunsAtVoltages(pol, sol, n, sw, scaling, from + 1, last, fin, fuel, m - 1);
    }
  }

  /** The whole corrected sweep visits exactly the voltages 0, Va_min, ..., up to Va_max. */
  lemma SweepVoltages(pol: Policy, sol: Solvers, n: int, sw: Sweep, scaling: real, prev: Iterate, fuel: nat)
    requires sw.increment > 0.0 && sw.vaMin <= sw.vaMax && Fits(pol, sol, n, prev)
    ensures var runs := Runs(pol, sol, n, sw, scaling, 0, LastRun(sw), prev, fuel);
            |runs| == LastRun(sw) + 1 && forall m :: 0 <= m < |runs| ==> runs[m].va == Voltages(sw, LastRun(sw))[m]
  {
    var runs := Runs(pol, sol, n, sw, scaling, 0, LastRun(sw), prev, fuel);
    forall m | 0 <= m < |runs|
      ensures runs[m].va == Voltages(sw, LastRun(sw))[m]
    {
      RunsAtVoltages(pol, sol, n, sw, scaling, 0, LastRun(sw), prev, fuel, m);
    }
  }

  /** The state before the sweep: the layered potential at Va = 0, n = p = min_dense inside,
      Un = Up = 0, tolerance_eq = 100 tolerance_i. */
  function Initial(sol: Solvers, n: int, knobs: Knobs, toleranceI: real): (st: Iterate)
    requires n >= 1
    ensures Sized(st, Rows(n))
  {
    var v := Layered(n, sol.vBottom(0.0)(0, 0), LayerStep(n, sol.vBottom(0.0)(0, 0), sol.vTop(0.0)(0, 0)));
    var d := Uniform(Rows(n), MinDense(sol.nBottom(1, 1), sol.pTop(1, 1)));
    Iterate(v, d, d, Uniform(Rows(n), 0.0), Uniform(Rows(n), 0.0), Finite(1.0), 0, 0,
            Knobs(knobs.w, knobs.tolerance, 100.0 * toleranceI))
  }

  /** One pass of the sweep loop: set Va and the knobs for Va_cnt, run the inner loop. */
  method RunAt(pol: Policy, sol: Solvers, n: int, sw: Sweep, scaling: real, vaCnt: int, last: int, prev: Iterate,
               fuel: nat, errVec: array<ExtReal>) returns (run: BiasRun)
    requires Fits(pol, sol, n, prev) && errVec.Length == Rows(n) + 1 && vaCnt <= last
    requires Cleared(errVec)
    modifies errVec
    ensures Fits(pol, sol, n, run.fin)
    ensures Runs(pol, sol, n, sw, scaling, vaCnt, last, prev, fuel) ==
              [run] + Runs(pol, sol, n, sw, scaling, vaCnt + 1, last, run.fin, fuel)
    ensures Cleared(errVec)
  {
    var va := if vaCnt == 0 then 0.0 else sw.vaMin + sw.increment * (vaCnt - 1) as real;
    var bs := Bias(n, vaCnt, va, scaling);
    var fin := RunBias(pol, sol, bs, BiasStart(pol, vaCnt, prev), fuel, errVec);
    run := BiasRun(va, fin);
  }

  /** The sweep loop over Va_cnt = 0..last. */
  method SweepLoop(pol: Policy, sol: Solvers, n: int, sw: Sweep, scaling: real, last: int, init: Iterate,
                   fuel: nat, errVec: array<ExtReal>) returns (runs: seq<BiasRun>)
    requires Fits(pol, sol, n, init) && errVec.Length == Rows(n) + 1
    requires Cleared(errVec)
    modifies errVec
    ensures runs == Runs(pol, sol, n, sw, scaling, 0, last, init, fuel)
  {
    ghost var all := Runs(pol, sol, n, sw, scaling, 0, last, init, fuel);
    runs := [];
    var prev := init;
    var vaCnt := 0;
    while vaCnt <= last
      invariant vaCnt >= 0 && (vaCnt <= last + 1 || vaCnt == 0)
      invariant Fits(pol, sol, n, prev) && Cleared(errVec)
      invariant runs + Runs(pol, sol, n, sw, scaling, vaCnt, last, prev, fuel) == all
      decreases last - vaCnt
    {
      var run := RunAt(pol, sol, n, sw, scaling, vaCnt, last, prev, fuel, errVec);
      AppendRun(runs, run, Runs(pol, sol, n, sw, scaling, vaCnt, last, prev, fuel),
                Runs(pol, sol, n, sw, scaling, vaCnt + 1, last, run.fin, fuel));
      runs := runs + [run];
      prev := run.fin;
      vaCnt := vaCnt + 1;
    }
  }

  /** The initial conditions: the layered potential at Va = 0, both densities min_dense,
      Un = Up = 0. */
  method InitialState(sol: Solvers, n: int, knobs: Knobs, toleranceI: real) returns (init: Iterate)
    requires n >= 1
    ensures init == Initial(sol, n, knobs, toleranceI)
  {
    var rows := Rows(n);
    Index3InRange(n, n, n, 0, 0, 0);
    var v := LayeredPotential(n, sol.vBottom(0.0)(0, 0), sol.vTop(0.0)(0, 0));
    var md := MinDense(sol.nBottom(1, 1), sol.pTop(1, 1));
    var nd, pd := UniformDensities(rows, md);
    var un := Uniform(rows, 0.0);
    init := Iterate(v, nd, pd, un, un, Finite(1.0), 0, 0, Knobs(knobs.w, knobs.tolerance, 100.0 * toleranceI));
  }

  /** main, with the sweep ending at Va_cnt = num_V: the initial conditions, the
      equilibrium run, then the biases Va_min .. Va_max. */
  method Drive(pol: Policy, sol: Solvers, n: int, sw: Sweep, scaling: real, knobs: Knobs, toleranceI: real, fuel: nat)
    returns (runs: seq<BiasRun>)
    requires n >= 1 && SolversShaped(sol, Rows(n)) && MixKeepsSize(pol, Rows(n) + 1) && sw.increment > 0.0
    ensures runs == Runs(pol, sol, n, sw, scaling, 0, LastRun(sw), Initial(sol, n, knobs, toleranceI), fuel)
  {
    var numV := ((sw.vaMax - sw.vaMin) / sw.increment).Floor + 1;
    var init := InitialState(sol, n, knobs, toleranceI);
    Index3InRange(n, n, n, 0, 0, 0);
    var errVec := new ExtReal[Rows(n) + 1](_ => Finite(0.0));
    assert numV == LastRun(sw) && Fits(pol, sol, n, init);
    runs := SweepLoop(pol, sol, n, sw, scaling, numV, init, fuel, errVec);
  }
}
