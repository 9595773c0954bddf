/** The sparse operator as the assembler hands it to Eigen: a list of (row, col, value)
    triplets, consolidated by setFromTriplets, which sums the values of duplicate
    positions. The sparse solve itself is not modelled. */
module Sparse {

  datatype Triplet = Triplet(row: int, col: int, value: real)

  /** A value-initialised Eigen triplet: (0, 0, 0.0). */
  const Blank: Triplet := Triplet(0, 0, 0.0)

  /** Entry (r, c) of the matrix setFromTriplets builds from ts: the sum of the values of
      every triplet placed at (r, c). */
  function Entry(ts: seq<Triplet>, r: int, c: int): real
  {
    if ts == [] then 0.0
    else (if ts[0].row == r && ts[0].col == c then ts[0].value else 0.0) + Entry(ts[1..], r, c)
  }

  lemma {:induction false} EntryAppend(a: seq<Triplet>, b: seq<Triplet>, r: int, c: int)
    ensures Entry(a + b, r, c) == Entry(a, r, c) + Entry(b, r, c)
  {
    if a == [] {
      assert a + b == b;
    } else {
      assert (a + b)[1..] == a[1..] + b;
      EntryAppend(a[1..], b, r, c);
    }
  }

  /** `count` triplets along one band: the m-th (0-based) sits at (m + rowOff, m + colOff)
      and carries vals[m + 1] (the band vectors are filled from index 1). */
  function Band(count: nat, rowOff: int, colOff: int, vals: seq<real>): (ts: seq<Triplet>)
    requires count < |vals|
    ensures |ts| == count
  {
    seq(count, m requires 0 <= m < count => Triplet(m + rowOff, m + colOff, vals[m + 1]))
  }

  /** Slot m of a band: the triplet (m + rowOff, m + colOff, vals[m + 1]). */
  function BandSlot(rowOff: int, colOff: int, vals: seq<real>, m: int): Triplet
    requires 0 <= m && m + 1 < |vals|
  {
    Triplet(m + rowOff, m + colOff, vals[m + 1])
  }

  /** ts with run written over its slots from lo on; every other slot keeps its triplet. */
  function Overwrite(ts: seq<Triplet>, lo: int, run: seq<Triplet>): (r: seq<Triplet>)
    requires 0 <= lo && lo + |run| <= |ts|
    ensures |r| == |ts|
  {
    ts[..lo] + run + ts[lo + |run|..]
  }

  /** Slot m of the overwritten buffer: from run inside the written stretch, from ts
      outside it. */
  lemma OverwriteSlots(ts: seq<Triplet>, lo: int, run: seq<Triplet>)
    requires 0 <= lo && lo + |run| <= |ts|
    ensures forall m :: 0 <= m < |ts| ==>
              Overwrite(ts, lo, run)[m] == if lo <= m < lo + |run| then run[m - lo] else ts[m]
  {
  }

  /** A buffer that holds a band's slots from lo on and agrees with ts everywhere else is
      ts with that band written at lo. */
  lemma SlotsOverwrite(ts: seq<Triplet>, ts': seq<Triplet>, lo: int, count: nat, rowOff: int, colOff: int,
                       vals: seq<real>)
    requires 0 <= lo && lo + count <= |ts| == |ts'| && count < |vals|
    requires forall m :: lo <= m < lo + count ==> ts'[m] == BandSlot(rowOff, colOff, vals, m - lo)
    requires forall m :: 0 <= m < |ts| && !(lo <= m < lo + count) ==> ts'[m] == ts[m]
    ensures ts' == Overwrite(ts, lo, Band(count, rowOff, colOff, vals))
  {
    var r := Overwrite(ts, lo, Band(count, rowOff, colOff, vals));
    OverwriteSlots(ts, lo, Band(count, rowOff, colOff, vals));
    assert forall m :: 0 <= m < |ts| ==> ts'[m] == r[m];
  }

  /** The value band `count` contributes at (r, c). */
  function BandTerm(count: int, rowOff: int, colOff: int, vals: seq<real>, r: int, c: int): real
    requires 0 <= count < |vals|
  {
    if r - rowOff == c - colOff && 0 <= r - rowOff < count then vals[r - rowOff + 1] else 0.0
  }

  /** A band contributes its value at the positions it covers and nothing elsewhere. */
  lemma {:induction false} BandEntry(count: nat, rowOff: int, colOff: int, vals: seq<real>, r: int, c: int)
    requires count < |vals|
    ensures Entry(Band(count, rowOff, colOff, vals), r, c) == BandTerm(count, rowOff, colOff, vals, r, c)
  {
    if count > 0 {
      var last := Triplet(count - 1 + rowOff, count - 1 + colOff, vals[count]);
      assert Band(count, rowOff, colOff, vals) == Band(count - 1, rowOff, colOff, vals) + [last];
      EntryAppend(Band(count - 1, rowOff, colOff, vals), [last], r, c);
      BandEntry(count - 1, rowOff, colOff, vals, r, c);
      assert Entry([last], r, c) == if last.row == r && last.col == c then last.value else 0.0 by {
        assert [last][1..] == [];
      }
    }
  }

  /** The unused tail of the triplet buffer. */
  function Filler(count: nat): (ts: seq<Triplet>)
    ensures |ts| == count
  {
    seq(count, _ => Blank)
  }

  lemma {:induction false} FillerEntry(count: nat, r: int, c: int)
    ensures Entry(Filler(count), r, c) == 0.0
  {
    if count > 0 {
      assert Filler(count)[1..] == Filler(count - 1);
      FillerEntry(count - 1, r, c);
    }
  }

  // ---------------------------------------------------------------------------
  // The five-band layout of the 2D continuity operator on an n x n interior grid

  /** Number of triplets one assembly emits: N(N-1) + (N^2-1) + N^2 + (N^2-1) + (N^2-N). */
  function TripletCount(n: int): int
  {
    (n * n - n) + (n * n - 1) + n * n + (n * n - 1) + (n * n - n)
  }

  /** The buffer after one assembly: far-lower, lower, main, upper and far-upper bands
      in that order, then the untouched tail, 5 * n * n triplets in all. */
  function Layout(n: int, farLower: seq<real>, lower: seq<real>, main: seq<real>,
                  upper: seq<real>, farUpper: seq<real>): (ts: seq<Triplet>)
    requires n >= 1
    requires |farLower| == n * n - n + 1 && |lower| == n * n && |main| == n * n + 1
    requires |upper| == n * n && |farUpper| == n * n - n + 1
    ensures |ts| == 5 * (n * n)
  {
    Band(n * n - n, n, 0, farLower) + Band(n * n - 1, 1, 0, lower) + Band(n * n, 0, 0, main)
      + Band(n * n - 1, 0, 1, upper) + Band(n * n - n, 0, n, farUpper) + Filler(2 * n + 2)
  }

  /** Past the five bands the layout is blank. */
  lemma LayoutTail(n: int, farLower: seq<real>, lower: seq<real>, main: seq<real>,
                   upper: seq<real>, farUpper: seq<real>)
    requires n >= 1
    requires |farLower| == n * n - n + 1 && |lower| == n * n && |main| == n * n + 1
    requires |upper| == n * n && |farUpper| == n * n - n + 1
    ensures forall m :: TripletCount(n) <= m < 5 * (n * n) ==> Layout(n, farLower, lower, main, upper, farUpper)[m] == Blank
  {
    var pre := Band(n * n - n, n, 0, farLower) + Band(n * n - 1, 1, 0, lower) + Band(n * n, 0, 0, main)
      + Band(n * n - 1, 0, 1, upper) + Band(n * n - n, 0, n, farUpper);
    assert |pre| == TripletCount(n);
    assert Layout(n, farLower, lower, main, upper, farUpper) == pre + Filler(2 * n + 2);
  }

  /** The start of each band's run in the buffer: far-lower, lower, main, upper,
      far-upper, then the blank tail. */
  function RunStart(n: int, band: int): int
  {
    if band == 0 then 0
    else if band == 1 then n * n - n
    else if band == 2 then 2 * (n * n) - n - 1
    else if band == 3 then 3 * (n * n) - n - 1
    else if band == 4 then 4 * (n * n) - n - 2
    else TripletCount(n)
  }

  /** Overwriting from lo, the end of a prefix already written, extends that prefix by the
      run and leaves the rest of the original buffer after it. */
  lemma OverwriteAppends(t: seq<Triplet>, ts: seq<Triplet>, lo: int, run: seq<Triplet>, pre: seq<Triplet>)
    requires |t| == |ts| && 0 <= lo && lo + |run| <= |t|
    requires t[..lo] == pre && t[lo..] == ts[lo..]
    ensures Overwrite(t, lo, run)[..lo + |run|] == pre + run
    ensures Overwrite(t, lo, run)[lo + |run|..] == ts[lo + |run|..]
  {
    var r := Overwrite(t, lo, run);
    assert r == pre + run + t[lo + |run|..];
    assert t[lo + |run|..] == t[lo..][|run|..] == ts[lo..][|run|..] == ts[lo + |run|..];
  }

  /** Writing the five bands one after the other from slot 0 over a buffer of 5 * n * n
      slots whose tail is blank gives the layout. */
  lemma OverwritesAreLayout(n: int, farLower: seq<real>, lower: seq<real>, main: seq<real>,
                            upper: seq<real>, farUpper: seq<real>, ts: seq<Triplet>)
    requires n >= 1
    requires |farLower| == n * n - n + 1 && |lower| == n * n && |main| == n * n + 1
    requires |upper| == n * n && |farUpper| == n * n - n + 1
    requires |ts| == 5 * (n * n)
    requires 0 <= RunStart(n, 1) <= RunStart(n, 2) <= RunStart(n, 3) <= RunStart(n, 4) <= RunStart(n, 5) <= |ts|
    requires forall m :: RunStart(n, 5) <= m < |ts| ==> ts[m] == Blank
    ensures Overwrite(Overwrite(Overwrite(Overwrite(Overwrite(ts,
              RunStart(n, 0), Band(n * n - n, n, 0, farLower)),
              RunStart(n, 1), Band(n * n - 1, 1, 0, lower)),
              RunStart(n, 2), Band(n * n, 0, 0, main)),
              RunStart(n, 3), Band(n * n - 1, 0, 1, upper)),
              RunStart(n, 4), Band(n * n - n, 0, n, farUpper))
         == Layout(n, farLower, lower, main, upper, farUpper)
  {
    var b1, b2, b3 := Band(n * n - n, n, 0, farLower), Band(n * n - 1, 1, 0, lower), Band(n * n, 0, 0, main);
    var b4, b5 := Band(n * n - 1, 0, 1, upper), Band(n * n - n, 0, n, farUpper);
    var t1 := Overwrite(ts, RunStart(n, 0), b1);
    OverwriteAppends(ts, ts, RunStart(n, 0), b1, []);
    var t2 := Overwrite(t1, RunStart(n, 1), b2);
    OverwriteAppends(t1, ts, RunStart(n, 1), b2, b1);
    var t3 := Overwrite(t2, RunStart(n, 2), b3);
    OverwriteAppends(t2, ts, RunStart(n, 2), b3, b1 + b2);
    var t4 := Overwrite(t3, RunStart(n, 3), b4);
    OverwriteAppends(t3, ts, RunStart(n, 3), b4, b1 + b2 + b3);
    var t5 := Overwrite(t4, RunStart(n, 4), b5);
    OverwriteAppends(t4, ts, RunStart(n, 4), b5, b1 + b2 + b3 + b4);
    TailIsFiller(ts, RunStart(n, 5), 2 * n + 2);
    assert t5 == t5[..RunStart(n, 5)] + t5[RunStart(n, 5)..];
  }

  /** The run places in order, inside a buffer of 5 * n * n slots. */
  lemma RunsOrdered(n: int)
    requires n >= 1
    ensures 0 <= RunStart(n, 1) <= RunStart(n, 2) <= RunStart(n, 3) <= RunStart(n, 4) <= RunStart(n, 5)
    ensures RunStart(n, 5) + 2 * n + 2 == 5 * (n * n)
  {
    MulAtLeast(n);
  }

  /** A blank run to the end of ts is the filler. */
  lemma TailIsFiller(ts: seq<Triplet>, lo: int, count: nat)
    requires 0 <= lo && lo + count == |ts|
    requires forall m :: lo <= m < |ts| ==> ts[m] == Blank
    ensures ts[lo..] == Filler(count)
  {
  }

  /** Proof helper (integer arithmetic): a positive n is at most n * n. */
  lemma MulAtLeast(n: int)
    requires n >= 1
    ensures n * n >= n
  {
    assert n * n - n == n * (n - 1);
  }

  /** The triplet count fits the buffer reserved for it (5 * num_elements), leaving
      2N + 2 blank triplets. */
  lemma TripletCountFits(n: int)
    requires n >= 1
    ensures TripletCount(n) + 2 * n + 2 == 5 * (n * n)
    ensures 0 < TripletCount(n) <= 5 * (n * n)
  {
  }

  /** Every triplet of the layout addresses a row and a column of the n*n x n*n matrix. */
  lemma LayoutInRange(n: int, farLower: seq<real>, lower: seq<real>, main: seq<real>,
                      upper: seq<real>, farUpper: seq<real>, m: int)
    requires n >= 1
    requires |farLower| == n * n - n + 1 && |lower| == n * n && |main| == n * n + 1
    requires |upper| == n * n && |farUpper| == n * n - n + 1
    requires 0 <= m < 5 * (n * n)
    ensures 0 <= Layout(n, farLower, lower, main, upper, farUpper)[m].row < n * n
    ensures 0 <= Layout(n, farLower, lower, main, upper, farUpper)[m].col < n * n
  {
  }

  /** The five-band matrix the assembler means: the main diagonal, the couplings to the
      x neighbours (offset 1) and to the z neighbours (offset n), zero elsewhere. */
  function BandMatrix(n: int, farLower: seq<real>, lower: seq<real>, main: seq<real>,
                      upper: seq<real>, farUpper: seq<real>, r: int, c: int): real
    requires n >= 1
    requires |farLower| == n * n - n + 1 && |lower| == n * n && |main| == n * n + 1
    requires |upper| == n * n && |farUpper| == n * n - n + 1
    requires 0 <= r < n * n && 0 <= c < n * n
  {
    if c == r then main[r + 1]
    else if c == r - 1 then lower[r]
    else if c == r + 1 then upper[r + 1]
    else if c == r - n then farLower[c + 1]
    else if c == r + n then farUpper[r + 1]
    else 0.0
  }

  /** Entry distributes over a six-way concatenation. */
  lemma EntryAppend6(b1: seq<Triplet>, b2: seq<Triplet>, b3: seq<Triplet>, b4: seq<Triplet>,
                     b5: seq<Triplet>, b6: seq<Triplet>, r: int, c: int)
    ensures Entry(b1 + b2 + b3 + b4 + b5 + b6, r, c)
         == Entry(b1, r, c) + Entry(b2, r, c) + Entry(b3, r, c) + Entry(b4, r, c)
          + Entry(b5, r, c) + Entry(b6, r, c)
  {
    EntryAppend(b1 + b2 + b3 + b4 + b5, b6, r, c);
    EntryAppend(b1 + b2 + b3 + b4, b5, r, c);
    EntryAppend(b1 + b2 + b3, b4, r, c);
    EntryAppend(b1 + b2, b3, r, c);
    EntryAppend(b1, b2, r, c);
  }

  /** The layout's entry is the sum of the six segments' entries. */
  lemma LayoutSegments(n: int, farLower: seq<real>, lower: seq<real>, main: seq<real>,
                       upper: seq<real>, farUpper: seq<real>, r: int, c: int)
    requires n >= 1
    requires |farLower| == n * n - n + 1 && |lower| == n * n && |main| == n * n + 1
    requires |upper| == n * n && |farUpper| == n * n - n + 1
    ensures Entry(Layout(n, farLower, lower, main, upper, farUpper), r, c)
         == Entry(Band(n * n - n, n, 0, farLower), r, c) + Entry(Band(n * n - 1, 1, 0, lower), r, c)
          + Entry(Band(n * n, 0, 0, main), r, c) + Entry(Band(n * n - 1, 0, 1, upper), r, c)
          + Entry(Band(n * n - n, 0, n, farUpper), r, c) + Entry(Filler(2 * n + 2), r, c)
  {
    EntryAppend6(Band(n * n - n, n, 0, farLower), Band(n * n - 1, 1, 0, lower),
                 Band(n * n, 0, 0, main), Band(n * n - 1, 0, 1, upper),
                 Band(n * n - n, 0, n, farUpper), Filler(2 * n + 2), r, c);
  }

  /** The layout's entry is the sum of the five band terms. */
  lemma LayoutEntry(n: int, farLower: seq<real>, lower: seq<real>, main: seq<real>,
                    upper: seq<real>, farUpper: seq<real>, r: int, c: int)
    requires n >= 1
    requires |farLower| == n * n - n + 1 && |lower| == n * n && |main| == n * n + 1
    requires |upper| == n * n && |farUpper| == n * n - n + 1
    ensures Entry(Layout(n, farLower, lower, main, upper, farUpper), r, c)
         == BandTerm(n * n - n, n, 0, farLower, r, c) + BandTerm(n * n - 1, 1, 0, lower, r, c)
          + BandTerm(n * n, 0, 0, main, r, c) + BandTerm(n * n - 1, 0, 1, upper, r, c)
          + BandTerm(n * n - n, 0, n, farUpper, r, c)
  {
    LayoutSegments(n, farLower, lower, main, upper, farUpper, r, c);
    BandEntry(n * n - n, n, 0, farLower, r, c);
    BandEntry(n * n - 1, 1, 0, lower, r, c);
    BandEntry(n * n, 0, 0, main, r, c);
    BandEntry(n * n - 1, 0, 1, upper, r, c);
    BandEntry(n * n - n, 0, n, farUpper, r, c);
    FillerEntry(2 * n + 2, r, c);
  }

  /** Consolidating the layout yields exactly the five-band matrix: no position receives
      two contributions, and every position off the five bands is zero. */
  lemma LayoutConsolidates(n: int, farLower: seq<real>, lower: seq<real>, main: seq<real>,
                           upper: seq<real>, farUpper: seq<real>, r: int, c: int)
    requires n >= 1
    requires |farLower| == n * n - n + 1 && |lower| == n * n && |main| == n * n + 1
    requires |upper| == n * n && |farUpper| == n * n - n + 1
    requires 0 <= r < n * n && 0 <= c < n * n
    ensures Entry(Layout(n, farLower, lower, main, upper, farUpper), r, c)
         == BandMatrix(n, farLower, lower, main, upper, farUpper, r, c)
    ensures c != r && c != r - 1 && c != r + 1 && c != r - n && c != r + n ==>
              Entry(Layout(n, farLower, lower, main, upper, farUpper), r, c) == 0.0
  {
    LayoutEntry(n, farLower, lower, main, upper, farUpper, r, c);
    var nn := n * n;
    assert n == 1 ==> nn == 1;
    assert n >= 2 ==> nn >= 2 * n by {
      if n >= 2 { assert n * n >= 2 * n; }
    }
  }
}
