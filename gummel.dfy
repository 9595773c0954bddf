/** What the two 3D Gummel drivers share: the double values the error metric can take, the
    relative-change quotient, std::max_element, the clamp of negative densities, the stall
    counter, the bias sweep's voltages, and the damping knobs of Parameters that the
    drivers read and adapt.

    The Utilities and Parameters methods the drivers call (linear_mix, reduce_w,
    relax_tolerance, use_tolerance_*, use_w_*) are not part of this model: they are
    abstract functions collected in a Policy. */
module Gummel {
  import opened Bernoulli

  // ---------------------------------------------------------------------------
  // Doubles of the error metric

  /** A double the error metric can produce: finite, or +inf where a positive change is
      divided by a zero old density. */
  datatype ExtReal = Finite(r: real) | PosInf

  /** a < b on doubles. */
  predicate Below(a: ExtReal, b: ExtReal)
  {
    match a
    case PosInf => false
    case Finite(x) => b.PosInf? || x < b.r
  }

  /** error_np > tolerance. */
  predicate Exceeds(e: ExtReal, t: real)
  {
    e.PosInf? || e.r > t
  }

  /** num / den in IEEE arithmetic for num, den >= 0 that are not both 0: +inf when den is
      0, the real quotient otherwise. */
  function Quotient(num: real, den: real): (q: ExtReal)
    requires num >= 0.0 && den >= 0.0 && (den == 0.0 ==> num > 0.0)
    ensures !Below(q, Finite(0.0))
    ensures q.Finite? <==> den != 0.0
    ensures q.Finite? ==> q.r * den == num
  {
    if den == 0.0 then PosInf else Finite(num / den)
  }

  /** A run of count zeros: the error vector once std::fill has refilled it. */
  function Zeros(count: nat): (z: seq<ExtReal>)
    ensures |z| == count && forall i :: 0 <= i < count ==> z[i] == Finite(0.0)
  {
    seq(count, _ => Finite(0.0))
  }

  /** *std::max_element(s): scanning from the front, the current largest is replaced by an
      entry only when it is below that entry. */
  function MaxElement(s: seq<ExtReal>): ExtReal
    requires |s| > 0
  {
    if |s| == 1 then s[0]
    else
      var m := MaxElement(s[..|s| - 1]);
      if Below(m, s[|s| - 1]) then s[|s| - 1] else m
  }

  /** The maximum is an entry of s, and no entry of s is above it. */
  lemma {:induction false} MaxElementIsMaximum(s: seq<ExtReal>)
    requires |s| > 0
    ensures exists i :: 0 <= i < |s| && MaxElement(s) == s[i]
    ensures forall i :: 0 <= i < |s| ==> !Below(MaxElement(s), s[i])
  {
    if |s| > 1 {
      var front := s[..|s| - 1];
      MaxElementIsMaximum(front);
      var i :| 0 <= i < |front| && MaxElement(front) == front[i];
      if Below(MaxElement(front), s[|s| - 1]) {
        assert MaxElement(s) == s[|s| - 1];
      } else {
        assert front[i] == s[i];
      }
      forall k | 0 <= k < |s|
        ensures !Below(MaxElement(s), s[k])
      {
        if k < |s| - 1 {
          assert s[k] == front[k];
        }
      }
    } else {
      assert MaxElement(s) == s[0];
    }
  }

  /** A vector of entries that are all at least 0 has its maximum at least 0. */
  lemma MaxElementNonNegative(s: seq<ExtReal>)
    requires |s| > 0 && forall i :: 0 <= i < |s| ==> !Below(s[i], Finite(0.0))
    ensures !Below(MaxElement(s), Finite(0.0))
  {
    MaxElementIsMaximum(s);
  }

  /** The maximum of a vector of zeros is 0. */
  lemma {:induction false} MaxElementOfZeros(count: nat)
    requires count > 0
    ensures MaxElement(Zeros(count)) == Finite(0.0)
  {
    if count > 1 {
      assert Zeros(count)[..count - 1] == Zeros(count - 1);
      MaxElementOfZeros(count - 1);
    }
  }

  // ---------------------------------------------------------------------------
  // Clamping

  /** A solved density after "if (x < 0.0) x = 0": never negative, unchanged where it was
      not negative, 0 where it was. */
  function Clamped(x: real): (c: real)
    ensures c >= 0.0
    ensures x >= 0.0 ==> c == x
    ensures x < 0.0 ==> c == 0.0
  {
    if x < 0.0 then 0.0 else x
  }

  /** The clamping loop over slots lo..hi-1 of a solution vector, in place. */
  method ClampRange(a: array<real>, lo: int, hi: int)
    requires 0 <= lo <= hi <= a.Length
    modifies a
    ensures forall i :: lo <= i < hi ==> a[i] == Clamped(old(a[i]))
    ensures forall i :: 0 <= i < a.Length && !(lo <= i < hi) ==> a[i] == old(a[i])
  {
    var i := lo;
    while i < hi
      invariant lo <= i <= hi
      invariant forall m :: lo <= m < i ==> a[m] == Clamped(old(a[m]))
      invariant forall m :: 0 <= m < a.Length && !(lo <= m < i) ==> a[m] == old(a[m])
    {
      if a[i] < 0.0 {
        a[i] := 0.0;
      }
      i := i + 1;
    }
  }

  // ---------------------------------------------------------------------------
  // The damping knobs and the abstract Parameters / Utilities methods

  /** The members of Parameters the drivers read and change while they run: the mixing
      weight w, the convergence tolerance, and tolerance_eq. */
  datatype Knobs = Knobs(w: real, tolerance: real, toleranceEq: real)

  /** linear_mix(params, new, old), reduce_w, relax_tolerance, use_tolerance_i, use_w_i,
      use_tolerance_eq and use_w_eq, as functions of the knobs they read and write. */
  datatype Policy = Policy(mix: (Knobs, seq<real>, seq<real>) -> seq<real>,
                           reduceW: Knobs -> Knobs, relaxTolerance: Knobs -> Knobs,
                           useToleranceI: Knobs -> Knobs, useWI: Knobs -> Knobs,
                           useToleranceEq: Knobs -> Knobs, useWEq: Knobs -> Knobs)

  /** The only fact assumed of linear_mix: mixing two vectors of one size gives a vector
      of that size. */
  ghost predicate MixKeepsSize(pol: Policy, size: int)
  {
    forall k, a, b :: |a| == size && |b| == size ==> |pol.mix(k, a, b)| == size
  }

  /** The adaptation of a stalled iteration: reduce_w, then relax_tolerance. */
  function Adapt(pol: Policy, k: Knobs): Knobs
  {
    pol.relaxTolerance(pol.reduceW(k))
  }

  /** The initial value of both densities, the smaller of the two boundary values
      (a ternary, not std::min). */
  function MinDense(a: real, b: real): (m: real)
    ensures m <= a && m <= b
    ensures m == a || m == b
  {
    if a < b then a else b
  }

  // ---------------------------------------------------------------------------
  // The stall counter

  /** not_cnv_cnt after "if (error_np >= old_error) not_cnv_cnt++". */
  function Bumped(count: int, err: ExtReal, oldErr: ExtReal): int
  {
    if Below(err, oldErr) then count else count + 1
  }

  /** Whether the iteration adapts the knobs: the bumped counter passed the limit. */
  predicate Stalls(limit: int, count: int, err: ExtReal, oldErr: ExtReal)
  {
    Bumped(count, err, oldErr) > limit
  }

  /** not_cnv_cnt at the end of an iteration: 0 after an adaptation, the bumped value
      otherwise. */
  function StallCount(limit: int, count: int, err: ExtReal, oldErr: ExtReal): int
  {
    if Stalls(limit, count, err, oldErr) then 0 else Bumped(count, err, oldErr)
  }

  /** The counter goes up by one exactly when the error did not fall, and, kept in
      0..limit, it stays there: a stalled iteration restarts it from 0. */
  lemma StallCountStep(limit: int, count: int, err: ExtReal, oldErr: ExtReal)
    requires 0 <= count <= limit
    ensures 0 <= StallCount(limit, count, err, oldErr) <= limit
    ensures Stalls(limit, count, err, oldErr) <==> !Below(err, oldErr) && count == limit
    ensures !Stalls(limit, count, err, oldErr) ==>
              StallCount(limit, count, err, oldErr) == if Below(err, oldErr) then count else count + 1
  {
  }

  // ---------------------------------------------------------------------------
  // The bias sweep

  /** num_V = floor((Va_max - Va_min) / increment) + 1 (increment > 0 after validation). */
  function BiasCount(vaMin: real, vaMax: real, increment: real): int
    requires increment > 0.0
  {
    ((vaMax - vaMin) / increment).Floor + 1
  }

  /** Va = Va_min + increment * (Va_cnt - 1). */
  function Bias(vaMin: real, increment: real, vaCnt: int): real
  {
    vaMin + increment * (vaCnt - 1) as real
  }

  /** The biases Va_cnt = 1..num_V start at Va_min, step by increment and never pass
      Va_max; the next one, Va_cnt = num_V + 1, would. */
  lemma BiasesInRange(vaMin: real, vaMax: real, increment: real, vaCnt: int)
    requires increment > 0.0 && 1 <= vaCnt <= BiasCount(vaMin, vaMax, increment)
    ensures vaMin <= Bias(vaMin, increment, vaCnt) <= vaMax
    ensures Bias(vaMin, increment, vaCnt + 1) == Bias(vaMin, increment, vaCnt) + increment
  {
    var r := (vaMax - vaMin) / increment;
    assert (vaCnt - 1) as real <= r;
    assert increment * (vaCnt - 1) as real <= increment * r;
    assert increment * r == vaMax - vaMin;
  }

  /** The first voltage past the sweep lies above Va_max. */
  lemma BiasPastSweep(vaMin: real, vaMax: real, increment: real)
    requires increment > 0.0
    ensures Bias(vaMin, increment, BiasCount(vaMin, vaMax, increment) + 1) > vaMax
  {
    var r := (vaMax - vaMin) / increment;
    var c := BiasCount(vaMin, vaMax, increment);
    assert (c as real) > r;
    assert increment * (c as real) > increment * r;
    assert increment * r == vaMax - vaMin;
  }

  /** Proof helper for the sweep loops' bookkeeping: when what is left of the schedule starts with the run
      just made, appending that run to the runs done keeps their join the whole schedule. */
  lemma AppendRun<T>(done: seq<T>, run: T, rest: seq<T>, tail: seq<T>)
    requires rest == [run] + tail
    ensures done + rest == (done + [run]) + tail
  {
  }
}
