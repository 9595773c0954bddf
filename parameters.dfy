/** Parameters::Initialize of the 3D single-carrier program: the positivity guards, the
    validation sequence over the values of parameters.inp, and the grid counts derived from
    the box lengths and mesh spacings.

    The file stream is abstracted as an Input record holding the values in file order (the
    comment words between them only label the diagnostics). parameters.h is not part of
    this model: every value read is modelled as a double, the counts as ints. */
module Parameters {
  import GridIndex
  import GummelSingle

  // ---------------------------------------------------------------------------
  // The guards

  /** What a guard does: return with no effect, or throw std::runtime_error. */
  datatype Check = Passed | Threw(message: string)

  const PositiveMessage := "Invalid input. This input must be positive."
  const NegativeMessage := "Invalid input. This input must be negative."

  /** isPositive(double): throws exactly when the input is not above 0. */
  function IsPositive(input: real): (c: Check)
    ensures c.Passed? <==> input > 0.0
    ensures c.Threw? ==> c.message == PositiveMessage
  {
    if input <= 0.0 then Threw(PositiveMessage) else Passed
  }

  /** isPositive(int): throws exactly when the input is not above 0. */
  function IsPositiveInt(input: int): (c: Check)
    ensures c.Passed? <==> input >= 1
    ensures c.Threw? ==> c.message == PositiveMessage
  {
    if input <= 0 then Threw(PositiveMessage) else Passed
  }

  /** isNegative(double): throws exactly when the input is not below 0. */
  function IsNegative(input: real): (c: Check)
    ensures c.Passed? <==> input < 0.0
    ensures c.Threw? ==> c.message == NegativeMessage
  {
    if input >= 0.0 then Threw(NegativeMessage) else Passed
  }

  /** isNegative(int): throws exactly when the input is not below 0. */
  function IsNegativeInt(input: int): (c: Check)
    ensures c.Passed? <==> input <= -1
    ensures c.Threw? ==> c.message == NegativeMessage
  {
    if input >= 0 then Threw(NegativeMessage) else Passed
  }

  /** The two guards split the numbers: 0 fails both, any other value passes exactly one,
      and the int overloads agree with the double ones on whole numbers. */
  lemma GuardsPartition(x: int)
    ensures IsPositive(x as real).Threw? && IsNegative(x as real).Threw? <==> x == 0
    ensures x != 0 ==> (IsPositive(x as real).Passed? <==> IsNegative(x as real).Threw?)
    ensures IsPositiveInt(x) == IsPositive(x as real) && IsNegativeInt(x) == IsNegative(x as real)
  {
    if x >= 1 {
      assert x as real >= 1.0;
    } else if x <= -1 {
      assert x as real <= -1.0;
    }
  }

  // ---------------------------------------------------------------------------
  // The values of parameters.inp

  /** The values of parameters.inp, in the order Initialize reads them. */
  datatype Input = Input(lx: real, ly: real, lz: real, dx: real, dy: real, dz: real,
                         nLumo: real, nHomo: real, epsActive: real, pMobActive: real, mobil: real,
                         vaMin: real, vaMax: real, increment: real, wEq: real, wI: real,
                         toleranceI: real, wReduceFactor: real, tolRelaxFactor: real)

  /** The number of values in parameters.inp. */
  const FileLength := 19

  /** The values in file order. */
  function FileOrder(inp: Input): (s: seq<real>)
    ensures |s| == FileLength
  {
    [inp.lx, inp.ly, inp.lz, inp.dx, inp.dy, inp.dz, inp.nLumo, inp.nHomo, inp.epsActive,
     inp.pMobActive, inp.mobil, inp.vaMin, inp.vaMax, inp.increment, inp.wEq, inp.wI,
     inp.toleranceI, inp.wReduceFactor, inp.tolRelaxFactor]
  }

  /** The file positions whose value goes through isPositive: all but Va_min and Va_max. */
  predicate Guarded(pos: int)
  {
    0 <= pos < FileLength && pos != 11 && pos != 12
  }

  /** Every value Initialize checks is positive: all but Va_min and Va_max. */
  predicate Valid(inp: Input)
  {
    inp.lx > 0.0 && inp.ly > 0.0 && inp.lz > 0.0 && inp.dx > 0.0 && inp.dy > 0.0 && inp.dz > 0.0 &&
    inp.nLumo > 0.0 && inp.nHomo > 0.0 && inp.epsActive > 0.0 && inp.pMobActive > 0.0 &&
    inp.mobil > 0.0 && inp.increment > 0.0 && inp.wEq > 0.0 && inp.wI > 0.0 && inp.toleranceI > 0.0 &&
    inp.wReduceFactor > 0.0 && inp.tolRelaxFactor > 0.0
  }

  /** The file position of the first guard that throws, FileLength when none does: the
      checks in the order Initialize runs them. */
  function FailsAt(inp: Input): int
  {
    if inp.lx <= 0.0 then 0
    else if inp.ly <= 0.0 then 1
    else if inp.lz <= 0.0 then 2
    else if inp.dx <= 0.0 then 3
    else if inp.dy <= 0.0 then 4
    else if inp.dz <= 0.0 then 5
    else if inp.nLumo <= 0.0 then 6
    else if inp.nHomo <= 0.0 then 7
    else if inp.epsActive <= 0.0 then 8
    else if inp.pMobActive <= 0.0 then 9
    else if inp.mobil <= 0.0 then 10
    else if inp.increment <= 0.0 then 13
    else if inp.wEq <= 0.0 then 14
    else if inp.wI <= 0.0 then 15
    else if inp.toleranceI <= 0.0 then 16
    else if inp.wReduceFactor <= 0.0 then 17
    else if inp.tolRelaxFactor <= 0.0 then 18
    else FileLength
  }

  /** Initialize gets through the reads exactly when every guarded value is positive: the
      values at every file position except those of Va_min and Va_max. Otherwise it stops
      at the first guarded value that is not positive: a guarded position whose value is
      not positive, with every guarded position before it positive. */
  lemma FailsAtIsFirstFailure(inp: Input)
    ensures Valid(inp) <==> forall pos :: 0 <= pos < FileLength && Guarded(pos) ==> FileOrder(inp)[pos] > 0.0
    ensures FailsAt(inp) == FileLength <==> Valid(inp)
    ensures FailsAt(inp) < FileLength ==>
              Guarded(FailsAt(inp)) && FileOrder(inp)[FailsAt(inp)] <= 0.0 &&
              forall pos :: 0 <= pos < FailsAt(inp) && Guarded(pos) ==> FileOrder(inp)[pos] > 0.0
  {
    var s := FileOrder(inp);
    var f := FailsAt(inp);
    if Valid(inp) {
      forall pos | 0 <= pos < FileLength && Guarded(pos)
        ensures s[pos] > 0.0
      {
      }
    } else {
      assert Guarded(f) && s[f] <= 0.0;
      forall pos | 0 <= pos < f && Guarded(pos)
        ensures s[pos] > 0.0
      {
      }
    }
  }

  // ---------------------------------------------------------------------------
  // The grid counts

  /** num_cell = floor(L / d). */
  function CellCount(length: real, spacing: real): int
    requires spacing > 0.0
  {
    (length / spacing).Floor
  }

  /** num_cell whole cells of the spacing fit in the length, and one more would not; for
      positive lengths the count is never negative. */
  lemma CellCountFits(length: real, spacing: real)
    requires length > 0.0 && spacing > 0.0
    ensures CellCount(length, spacing) >= 0
    ensures CellCount(length, spacing) as real * spacing <= length
    ensures length < (CellCount(length, spacing) + 1) as real * spacing
  {
    var r := length / spacing;
    var c := CellCount(length, spacing);
    assert r * spacing == length;
    assert c as real <= r < (c + 1) as real;
    assert c as real * spacing <= r * spacing;
    var gap := (c + 1) as real - r;
    assert gap > 0.0;
    assert gap * spacing > 0.0;
    assert (c + 1) as real * spacing == (r + gap) * spacing == r * spacing + gap * spacing;
    assert length < (c + 1) as real * spacing;
  }

  /** num_elements = (Nx + 1)(Ny + 1)(Nz + 1): the number of rows of the single-carrier
      driver's solution vectors on the box of Nx + 1 by Ny + 1 by Nz + 1 cells. */
  function Elements(nx: int, ny: int, nz: int): (e: int)
    ensures e == GummelSingle.Rows(GummelSingle.Box(nx + 1, ny + 1, nz + 1))
    ensures nx >= 0 && ny >= 0 && nz >= 0 ==> e >= 1
  {
    var e := (nx + 1) * (ny + 1) * (nz + 1);
    if nx >= 0 && ny >= 0 && nz >= 0 then
      GridIndex.MulMonotone(1, nx + 1, ny + 1);
      GridIndex.MulMonotone(1, (nx + 1) * (ny + 1), nz + 1);
      e
    else e
  }

  // ---------------------------------------------------------------------------
  // Initialize

  /** How Initialize ends: it returns, or the catch block calls exit(code). */
  datatype Status = Ready | Exited(code: int)

  /** The members of Parameters that Initialize assigns. */
  class Parameters {
    var lx: real
    var ly: real
    var lz: real
    var dx: real
    var dy: real
    var dz: real
    var nLumo: real
    var nHomo: real
    var epsActive: real
    var pMobActive: real
    var mobil: real
    var vaMin: real
    var vaMax: real
    var increment: real
    var wEq: real
    var wI: real
    var toleranceI: real
    var wReduceFactor: real
    var tolRelaxFactor: real
    var nDos: real
    var numCellX: int
    var numCellY: int
    var numCellZ: int
    var nx: int
    var ny: int
    var nz: int
    var numElements: int

    /** The members Lx, Ly, Lz hold the values read. */
    predicate LengthsRead(inp: Input)
      reads this`lx, this`ly, this`lz
    {
      lx == inp.lx && ly == inp.ly && lz == inp.lz
    }

    /** The members dx, dy, dz hold the values read. */
    predicate SpacingsRead(inp: Input)
      reads this`dx, this`dy, this`dz
    {
      dx == inp.dx && dy == inp.dy && dz == inp.dz
    }

    /** The members N_LUMO, N_HOMO, eps_active, p_mob_active, mobil hold the values read. */
    predicate MaterialRead(inp: Input)
      reads this`nLumo, this`nHomo, this`epsActive, this`pMobActive, this`mobil
    {
      nLumo == inp.nLumo && nHomo == inp.nHomo && epsActive == inp.epsActive && pMobActive == inp.pMobActive && mobil == inp.mobil
    }

    /** The members Va_min, Va_max, increment hold the values read. */
    predicate SweepRead(inp: Input)
      reads this`vaMin, this`vaMax, this`increment
    {
      vaMin == inp.vaMin && vaMax == inp.vaMax && increment == inp.increment
    }

    /** The members w_eq, w_i, tolerance_i, w_reduce_factor, tol_relax_factor hold the values read. */
    predicate DampingRead(inp: Input)
      reads this`wEq, this`wI, this`toleranceI, this`wReduceFactor, this`tolRelaxFactor
    {
      wEq == inp.wEq && wI == inp.wI && toleranceI == inp.toleranceI && wReduceFactor == inp.wReduceFactor && tolRelaxFactor == inp.tolRelaxFactor
    }

    /** Part of the try block: the box lengths Lx, Ly and Lz, each read into its member and checked positive; the
        first check that throws skips the rest. */
    method ReadLengths(inp: Input) returns (thrown: bool)
      modifies this`lx, this`ly, this`lz
      ensures thrown <==> !(inp.lx > 0.0 && inp.ly > 0.0 && inp.lz > 0.0)
      ensures !thrown ==> LengthsRead(inp)
    {
      thrown := true;
      lx := inp.lx;
      if IsPositive(lx).Threw? { return; }
      ly := inp.ly;
      if IsPositive(ly).Threw? { return; }
      lz := inp.lz;
      if IsPositive(lz).Threw? { return; }
      thrown := false;
    }

    /** Part of the try block: the mesh spacings dx, dy and dz, each read into its member and checked positive; the
        first check that throws skips the rest. */
    method ReadSpacings(inp: Input) returns (thrown: bool)
      modifies this`dx, this`dy, this`dz
      ensures thrown <==> !(inp.dx > 0.0 && inp.dy > 0.0 && inp.dz > 0.0)
      ensures !thrown ==> SpacingsRead(inp)
    {
      thrown := true;
      dx := inp.dx;
      if IsPositive(dx).Threw? { return; }
      dy := inp.dy;
      if IsPositive(dy).Threw? { return; }
      dz := inp.dz;
      if IsPositive(dz).Threw? { return; }
      thrown := false;
    }

    /** Part of the try block: the densities of states N_LUMO and N_HOMO, eps_active, p_mob_active and mobil, each read into its member and checked positive; the
        first check that throws skips the rest. */
    method ReadMaterial(inp: Input) returns (thrown: bool)
      modifies this`nLumo, this`nHomo, this`epsActive, this`pMobActive, this`mobil
      ensures thrown <==> !(inp.nLumo > 0.0 && inp.nHomo > 0.0 && inp.epsActive > 0.0 && inp.pMobActive > 0.0 && inp.mobil > 0.0)
      ensures !thrown ==> MaterialRead(inp)
    {
      thrown := true;
      nLumo := inp.nLumo;
      if IsPositive(nLumo).Threw? { return; }
      nHomo := inp.nHomo;
      if IsPositive(nHomo).Threw? { return; }
      epsActive := inp.epsActive;
      if IsPositive(epsActive).Threw? { return; }
      pMobActive := inp.pMobActive;
      if IsPositive(pMobActive).Threw? { return; }
      mobil := inp.mobil;
      if IsPositive(mobil).Threw? { return; }
      thrown := false;
    }

    /** Part of the try block: Va_min and Va_max, read without a check, and increment, each read into its member and, where guarded, checked positive; the
        first check that throws skips the rest. */
    method ReadSweep(inp: Input) returns (thrown: bool)
      modifies this`vaMin, this`vaMax, this`increment
      ensures thrown <==> !(inp.increment > 0.0)
      ensures !thrown ==> SweepRead(inp)
    {
      thrown := true;
      vaMin := inp.vaMin;
      vaMax := inp.vaMax;
      increment := inp.increment;
      if IsPositive(increment).Threw? { return; }
      thrown := false;
    }

    /** Part of the try block: w_eq, w_i, tolerance_i, w_reduce_factor and tol_relax_factor, each read into its member and checked positive; the
        first check that throws skips the rest. */
    method ReadDamping(inp: Input) returns (thrown: bool)
      modifies this`wEq, this`wI, this`toleranceI, this`wReduceFactor, this`tolRelaxFactor
      ensures thrown <==> !(inp.wEq > 0.0 && inp.wI > 0.0 && inp.toleranceI > 0.0 && inp.wReduceFactor > 0.0 && inp.tolRelaxFactor > 0.0)
      ensures !thrown ==> DampingRead(inp)
    {
      thrown := true;
      wEq := inp.wEq;
      if IsPositive(wEq).Threw? { return; }
      wI := inp.wI;
      if IsPositive(wI).Threw? { return; }
      toleranceI := inp.toleranceI;
      if IsPositive(toleranceI).Threw? { return; }
      wReduceFactor := inp.wReduceFactor;
      if IsPositive(wReduceFactor).Threw? { return; }
      tolRelaxFactor := inp.tolRelaxFactor;
      if IsPositive(tolRelaxFactor).Threw? { return; }
      thrown := false;
    }

    /** The state after a successful Initialize: the values as read, N_dos = N_HOMO, and the
        counts derived from the lengths and spacings. */
    predicate Loaded(inp: Input)
      reads this
    {
      LengthsRead(inp) && SpacingsRead(inp) && MaterialRead(inp) && SweepRead(inp) && DampingRead(inp) &&
      nDos == inp.nHomo && Counted()
    }

    /** The counts derived from the lengths and spacings held: num_cell = floor(L / d) per
        axis, N = num_cell - 1, num_elements = (Nx + 1)(Ny + 1)(Nz + 1). */
    predicate Counted()
      reads this
    {
      dx > 0.0 && dy > 0.0 && dz > 0.0 &&
      numCellX == CellCount(lx, dx) && numCellY == CellCount(ly, dy) && numCellZ == CellCount(lz, dz) &&
      nx == numCellX - 1 && ny == numCellY - 1 && nz == numCellZ - 1 &&
      numElements == Elements(nx, ny, nz)
    }

    /** Parameters::Initialize on the values of parameters.inp: the try block, whose first
        throw is caught and ends the program with exit(1), then the counts. */
    method Initialize(inp: Input) returns (status: Status)
      modifies this
      ensures status == Ready <==> Valid(inp)
      ensures status != Ready ==> status == Exited(1)
      ensures status == Ready ==> Loaded(inp)
    {
      status := Exited(1);
      var thrown := TryBlock(inp);
      if !thrown {
        DeriveCounts();
        status := Ready;
      }
    }

    /** The try block of Initialize: the values read and checked in file order, then
        N_dos = N_HOMO; thrown when a check throws. */
    method TryBlock(inp: Input) returns (thrown: bool)
      modifies this`lx, this`ly, this`lz, this`dx, this`dy, this`dz, this`nLumo, this`nHomo,
               this`epsActive, this`pMobActive, this`mobil, this`vaMin, this`vaMax, this`increment,
               this`wEq, this`wI, this`toleranceI, this`wReduceFactor, this`tolRelaxFactor, this`nDos
      ensures thrown <==> !Valid(inp)
      ensures !thrown ==>
                LengthsRead(inp) && SpacingsRead(inp) && MaterialRead(inp) && SweepRead(inp) &&
                DampingRead(inp) && nDos == inp.nHomo
    {
      thrown := ReadGeometry(inp);
      if !thrown {
        thrown := ReadControls(inp);
        if !thrown {
          nDos := nHomo;
        }
      }
    }

    /** The try block up to mobil: lengths, spacings and material values. */
    method ReadGeometry(inp: Input) returns (thrown: bool)
      modifies this`lx, this`ly, this`lz, this`dx, this`dy, this`dz, this`nLumo, this`nHomo,
               this`epsActive, this`pMobActive, this`mobil
      ensures thrown <==> !(inp.lx > 0.0 && inp.ly > 0.0 && inp.lz > 0.0 && inp.dx > 0.0 && inp.dy > 0.0 &&
                            inp.dz > 0.0 && inp.nLumo > 0.0 && inp.nHomo > 0.0 && inp.epsActive > 0.0 &&
                            inp.pMobActive > 0.0 && inp.mobil > 0.0)
      ensures !thrown ==> LengthsRead(inp) && SpacingsRead(inp) && MaterialRead(inp)
    {
      thrown := ReadLengths(inp);
      if thrown { return; }
      thrown := ReadSpacings(inp);
      if thrown { return; }
      thrown := ReadMaterial(inp);
    }

    /** The rest of the try block: the sweep and damping values. */
    method ReadControls(inp: Input) returns (thrown: bool)
      modifies this`vaMin, this`vaMax, this`increment, this`wEq, this`wI, this`toleranceI,
               this`wReduceFactor, this`tolRelaxFactor
      ensures thrown <==> !(inp.increment > 0.0 && inp.wEq > 0.0 && inp.wI > 0.0 && inp.toleranceI > 0.0 &&
                            inp.wReduceFactor > 0.0 && inp.tolRelaxFactor > 0.0)
      ensures !thrown ==> SweepRead(inp) && DampingRead(inp)
    {
      thrown := ReadSweep(inp);
      if thrown { return; }
      thrown := ReadDamping(inp);
    }

    /** The counts after the try block. */
    method DeriveCounts()
      requires dx > 0.0 && dy > 0.0 && dz > 0.0
      modifies this`numCellX, this`numCellY, this`numCellZ, this`nx, this`ny, this`nz, this`numElements
      ensures Counted()
    {
      numCellX := CellCount(lx, dx);
      numCellY := CellCount(ly, dy);
      numCellZ := CellCount(lz, dz);
      nx := numCellX - 1;
      ny := numCellY - 1;
      nz := numCellZ - 1;
      numElements := Elements(nx, ny, nz);
    }
  }

  /** After a successful Initialize (whose guards make every length positive) num_cell
      whole cells fit in each length and no more,
      and num_elements is the driver's num_rows on the box of num_cell_x by num_cell_y by
      num_cell_z cells. An axis has at least one cell exactly when its length is at least
      its spacing; validation does not demand this, so num_elements is at least 1 exactly
      when every axis does, and is 0 on the empty grid otherwise. */
  lemma LoadedCounts(p: Parameters, inp: Input)
    requires p.Loaded(inp) && inp.lx > 0.0 && inp.ly > 0.0 && inp.lz > 0.0
    ensures p.numCellX >= 0 && p.numCellY >= 0 && p.numCellZ >= 0
    ensures p.numCellX as real * inp.dx <= inp.lx < (p.numCellX + 1) as real * inp.dx
    ensures p.numCellY as real * inp.dy <= inp.ly < (p.numCellY + 1) as real * inp.dy
    ensures p.numCellZ as real * inp.dz <= inp.lz < (p.numCellZ + 1) as real * inp.dz
    ensures p.numElements == GummelSingle.Rows(GummelSingle.Box(p.numCellX, p.numCellY, p.numCellZ))
    ensures (p.numCellX >= 1 <==> inp.lx >= inp.dx) && (p.numCellY >= 1 <==> inp.ly >= inp.dy) &&
            (p.numCellZ >= 1 <==> inp.lz >= inp.dz)
    ensures p.numElements >= 1 <==> inp.lx >= inp.dx && inp.ly >= inp.dy && inp.lz >= inp.dz
    ensures p.numElements < 1 ==> p.numElements == 0
  {
    AxisCount(inp.lx, inp.dx, p.numCellX);
    AxisCount(inp.ly, inp.dy, p.numCellY);
    AxisCount(inp.lz, inp.dz, p.numCellZ);
    BoxElements(p.numCellX, p.numCellY, p.numCellZ, p.numElements);
  }

  /** num_elements from the three cell counts: the driver's num_rows on their box, at
      least 1 exactly when every count is, and 0 otherwise. */
  lemma BoxElements(cx: int, cy: int, cz: int, e: int)
    requires cx >= 0 && cy >= 0 && cz >= 0 && e == Elements(cx - 1, cy - 1, cz - 1)
    ensures e == GummelSingle.Rows(GummelSingle.Box(cx, cy, cz))
    ensures e >= 1 <==> cx >= 1 && cy >= 1 && cz >= 1
    ensures e < 1 ==> e == 0
  {
    ElementsPositiveIff(cx, cy, cz);
  }

  /** One axis of the counts: floor(L / d) cells fit and one more does not, and there is a
      cell exactly when L is at least d. */
  lemma AxisCount(length: real, spacing: real, c: int)
    requires length > 0.0 && spacing > 0.0 && c == CellCount(length, spacing)
    ensures c >= 0
    ensures c as real * spacing <= length < (c + 1) as real * spacing
    ensures c >= 1 <==> length >= spacing
  {
    CellCountFits(length, spacing);
    OneCellIff(length, spacing);
  }

  /** A product of three non-negative counts is at least 1 exactly when each count is,
      and 0 otherwise. */
  lemma ElementsPositiveIff(a: int, b: int, c: int)
    requires a >= 0 && b >= 0 && c >= 0
    ensures a * b * c >= 1 <==> a >= 1 && b >= 1 && c >= 1
    ensures a * b * c < 1 ==> a * b * c == 0
  {
    if a >= 1 && b >= 1 && c >= 1 {
      GridIndex.MulMonotone(1, a, b);
      GridIndex.MulMonotone(1, a * b, c);
    } else if a == 0 {
      assert a * b == 0;
    } else if b == 0 {
      assert a * b == 0;
    } else {
      assert c == 0;
    }
  }

  /** A length holds at least one cell of the spacing exactly when it is at least the
      spacing. */
  lemma OneCellIff(length: real, spacing: real)
    requires length > 0.0 && spacing > 0.0
    ensures CellCount(length, spacing) >= 1 <==> length >= spacing
  {
    CellCountFits(length, spacing);
    if length >= spacing {
      OneCellFits(length, spacing);
    } else {
      var r := length / spacing;
      assert r * spacing == length;
    }
  }

  /** A length of at least one spacing holds at least one cell. */
  lemma OneCellFits(length: real, spacing: real)
    requires spacing > 0.0 && length >= spacing
    ensures CellCount(length, spacing) >= 1
  {
    assert length / spacing >= 1.0 by {
      assert (length / spacing) * spacing == length;
    }
  }
}
