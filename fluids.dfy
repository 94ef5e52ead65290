/*
 * A model of the grid velocity-field solver `FluidGrid`: three flat arrays of
 * GridSize * GridSize samples (x-velocity, y-velocity, density), an impulse
 * operation, a per-tick step (damping, then nearest-cell semi-Lagrangian
 * advection from a snapshot) and a central-difference divergence query.
 *
 * Velocities are modelled as `real`; the solver's `f64` rounding is not.
 * The pure functions below specify each stage; the class `FluidGrid` holds
 * the arrays and its methods are proved against those functions.
 */
module Fluids {

  /** Side length of the square grid. */
  const GridSize: nat := 128
  /** Number of cells, and the length of each of the three arrays. */
  const Size: nat := GridSize * GridSize
  /** Time step used to backtrack the advection source position. */
  const Dt: real := 0.01
  /** Factor by which damping multiplies every velocity sample. */
  const Viscosity: real := 0.001
  /** Width of the vector chunks damping processes at a time (`f64x4`). */
  const Lanes: nat := 4

  // ---------------------------------------------------------------------
  // Grid addressing: cell (x, y) lives at flat index y * GridSize + x.

  function Column(i: nat): nat { i % GridSize }

  function Row(i: nat): nat { i / GridSize }

  function FlatIndex(x: nat, y: nat): nat { y * GridSize + x }

  /** Every flat index in range is the address of exactly one cell of the grid. */
  lemma CellAddressing(i: nat)
    requires i < Size
    ensures Column(i) < GridSize && Row(i) < GridSize
    ensures FlatIndex(Column(i), Row(i)) == i
  {
  }

  /** An in-range cell has an in-range flat index, from which its coordinates are recovered. */
  lemma FlatIndexOfCell(x: nat, y: nat)
    requires x < GridSize && y < GridSize
    ensures FlatIndex(x, y) < Size
    ensures Column(FlatIndex(x, y)) == x && Row(FlatIndex(x, y)) == y
  {
  }

  /** The zero field: what a freshly constructed grid holds in every array. */
  function Zeros(): (z: seq<real>)
    ensures |z| == Size
  {
    seq(Size, _ => 0.0)
  }

  // ---------------------------------------------------------------------
  // Damping.

  /** Every sample multiplied by the viscosity factor. */
  function Damped(s: seq<real>): (r: seq<real>)
    ensures |r| == |s|
  {
    seq(|s|, k requires 0 <= k < |s| => s[k] * Viscosity)
  }

  function Abs(v: real): real { if v < 0.0 then -v else v }

  /** Damping never increases a sample's magnitude, and strictly shrinks every nonzero one. */
  lemma DampingAttenuates(s: seq<real>, k: nat)
    requires k < |s|
    ensures Abs(Damped(s)[k]) <= Abs(s[k])
    ensures s[k] != 0.0 ==> Abs(Damped(s)[k]) < Abs(s[k])
  {
  }

  lemma DampedZeros()
    ensures Damped(Zeros()) == Zeros()
  {
  }

  /**
   * Damping processed in chunks of Lanes, each chunk loaded, multiplied lane
   * by lane and written back. A chunk shorter than Lanes cannot be loaded,
   * so the length must be a multiple of Lanes (GridSize * GridSize is).
   * The chunked result is the per-element map.
   */
  method DampInChunks(a: array<real>)
    requires a.Length % Lanes == 0
    modifies a
    ensures a[..] == Damped(old(a[..]))
  {
    var start := 0;
    while start < a.Length
      invariant 0 <= start <= a.Length && start % Lanes == 0
      invariant forall k :: 0 <= k < start ==> a[k] == old(a[k]) * Viscosity
      invariant forall k :: start <= k < a.Length ==> a[k] == old(a[k])
    {
      var chunk := a[start..start + Lanes];
      var lane := 0;
      while lane < Lanes
        invariant 0 <= lane <= Lanes
        invariant forall k :: 0 <= k < start + lane ==> a[k] == old(a[k]) * Viscosity
        invariant forall k :: start + lane <= k < a.Length ==> a[k] == old(a[k])
      {
        a[start + lane] := chunk[lane] * Viscosity;
        lane := lane + 1;
      }
      start := start + Lanes;
    }
  }

  // ---------------------------------------------------------------------
  // Advection.

  /** `v.max(0.0).min(hi)`: saturate v into [0, hi]. */
  function Clamp(v: real, hi: real): (r: real)
    requires 0.0 <= hi
    ensures 0.0 <= r <= hi
    ensures 0.0 <= v <= hi ==> r == v
    ensures v < 0.0 ==> r == 0.0
    ensures hi < v ==> r == hi
  {
    var low := if v < 0.0 then 0.0 else v;
    if low > hi then hi else low
  }

  /** The cast of a non-negative coordinate to a cell number: the integer part. */
  function Truncate(v: real): (k: nat)
    requires 0.0 <= v
    ensures k as real <= v < k as real + 1.0
  {
    v.Floor
  }

  /**
   * One coordinate of the backtracked source cell: step back by v * Dt from
   * coordinate c, clamp to the grid, truncate to a cell.
   */
  function BacktrackCoord(c: nat, v: real): (k: nat)
    ensures k < GridSize
  {
    Truncate(Clamp(c as real - v * Dt, (GridSize - 1) as real))
  }

  /** The flat index advection samples for cell i when the cell's velocity is (vx, vy). */
  function SourceIndex(i: nat, vx: real, vy: real): (j: nat)
    requires i < Size
    ensures j < Size
  {
    FlatIndex(BacktrackCoord(Column(i), vx), BacktrackCoord(Row(i), vy))
  }

  /** A coordinate whose backtracked position stays on the grid moves to the cell that position lies in. */
  lemma BacktrackInside(c: nat, v: real)
    requires 0.0 <= c as real - v * Dt <= (GridSize - 1) as real
    ensures BacktrackCoord(c, v) as real <= c as real - v * Dt < BacktrackCoord(c, v) as real + 1.0
  {
  }

  /** A cell with zero velocity samples itself. */
  lemma StillCellSamplesItself(i: nat)
    requires i < Size
    ensures SourceIndex(i, 0.0, 0.0) == i
  {
    CellAddressing(i);
    assert BacktrackCoord(Column(i), 0.0) == Column(i);
    assert BacktrackCoord(Row(i), 0.0) == Row(i);
  }

  /**
   * At the corner (0, 0), a non-negative velocity backtracks to the corner or
   * beyond it, and the source index saturates to 0.
   */
  lemma CornerSaturates(vx: real, vy: real)
    requires 0.0 <= vx && 0.0 <= vy
    ensures SourceIndex(0, vx, vy) == 0
  {
    assert BacktrackCoord(0, vx) == 0;
    assert BacktrackCoord(0, vy) == 0;
  }

  /** Every cell takes field's value at the source index read off the velocity (vx, vy) at that cell. */
  function Advect(field: seq<real>, vx: seq<real>, vy: seq<real>): (r: seq<real>)
    requires |field| == Size && |vx| == Size && |vy| == Size
    ensures |r| == Size
  {
    seq(Size, i requires 0 <= i < Size => field[SourceIndex(i, vx[i], vy[i])])
  }

  /** No value is read from outside the grid: each advected value is a sample of the input field. */
  lemma AdvectSamplesField(field: seq<real>, vx: seq<real>, vy: seq<real>, i: nat)
    requires |field| == Size && |vx| == Size && |vy| == Size
    requires i < Size
    ensures exists j :: 0 <= j < Size && Advect(field, vx, vy)[i] == field[j]
  {
    var j := SourceIndex(i, vx[i], vy[i]);
    assert Advect(field, vx, vy)[i] == field[j];
  }

  /** A cell whose advecting velocity is (0, 0) keeps its value. */
  lemma AdvectKeepsStillCell(field: seq<real>, vx: seq<real>, vy: seq<real>, i: nat)
    requires |field| == Size && |vx| == Size && |vy| == Size
    requires i < Size && vx[i] == 0.0 && vy[i] == 0.0
    ensures Advect(field, vx, vy)[i] == field[i]
  {
    StillCellSamplesItself(i);
  }

  /** Advection with a zero velocity field is the identity. */
  lemma {:induction false} AdvectStillField(field: seq<real>)
    requires |field| == Size
    ensures Advect(field, Zeros(), Zeros()) == field
  {
    forall i | 0 <= i < Size
      ensures Advect(field, Zeros(), Zeros())[i] == field[i]
    {
      AdvectKeepsStillCell(field, Zeros(), Zeros(), i);
    }
  }

  /**
   * Advection into array a, cell by cell: a[i] is overwritten with
   * field[source index], where field, vx and vy are snapshots taken before
   * the pass, so no write of the pass is read back by it.
   */
  method AdvectInto(a: array<real>, field: seq<real>, vx: seq<real>, vy: seq<real>)
    requires a.Length == Size && |field| == Size && |vx| == Size && |vy| == Size
    modifies a
    ensures a[..] == Advect(field, vx, vy)
  {
    for i := 0 to Size
      invariant forall k :: 0 <= k < i ==> a[k] == Advect(field, vx, vy)[k]
    {
      var x := (i % GridSize) as real;
      var y := (i / GridSize) as real;
      var newX := Clamp(x - vx[i] * Dt, (GridSize - 1) as real);
      var newY := Clamp(y - vy[i] * Dt, (GridSize - 1) as real);
      var newIdx := Truncate(newY) * GridSize + Truncate(newX);
      a[i] := field[newIdx];
    }
  }

  // ---------------------------------------------------------------------
  // One tick.

  /** The two velocity components of the field. */
  datatype Velocity = Velocity(x: seq<real>, y: seq<real>)

  predicate Sized(f: Velocity) { |f.x| == Size && |f.y| == Size }

  /**
   * One tick: damp both components, then advect each from the damped
   * snapshot; both passes take their source index from the same damped
   * velocity (dx, dy), never from the other pass's output.
   */
  function Step(f: Velocity): (r: Velocity)
    requires Sized(f)
    ensures Sized(r)
  {
    var dx, dy := Damped(f.x), Damped(f.y);
    Velocity(Advect(dx, dx, dy), Advect(dy, dx, dy))
  }

  /** Each sample after a step is a damped sample of the field before it, with one source index for both components. */
  lemma StepSamplesDampedField(f: Velocity, i: nat)
    requires Sized(f) && i < Size
    ensures var j := SourceIndex(i, f.x[i] * Viscosity, f.y[i] * Viscosity);
            Step(f).x[i] == f.x[j] * Viscosity && Step(f).y[i] == f.y[j] * Viscosity
  {
  }

  /** The zero field is a fixed point of the step. */
  lemma {:induction false} StepPreservesZero()
    ensures Step(Velocity(Zeros(), Zeros())) == Velocity(Zeros(), Zeros())
  {
    DampedZeros();
    AdvectStillField(Zeros());
  }

  /** The cell of the impulse in the solver's own test. */
  const Center: nat := FlatIndex(64, 64)

  /** Backtracking from the center with the damped impulse (Viscosity, 0) lands one cell to the left. */
  lemma CenterImpulseSamplesLeft()
    ensures SourceIndex(Center, Viscosity, 0.0) == Center - 1
  {
    assert Clamp(64.0 - Viscosity * Dt, (GridSize - 1) as real) == 63.99999;
    assert BacktrackCoord(64, Viscosity) == 63;
    assert BacktrackCoord(64, 0.0) == 64;
  }

  /**
   * A unit x-impulse at (64, 64) on the zero field is gone after one step:
   * the impulse cell samples its left neighbour, which is zero, and every
   * other cell is still and keeps its zero. In particular the center's
   * x-velocity ends below 1.0.
   */
  lemma {:induction false} CenterImpulseVanishes()
    ensures Step(Velocity(Zeros()[Center := 1.0], Zeros())) == Velocity(Zeros(), Zeros())
  {
    var f := Velocity(Zeros()[Center := 1.0], Zeros());
    var dx, dy := Damped(f.x), Damped(f.y);
    DampedZeros();
    assert dy == Zeros();
    forall i | 0 <= i < Size
      ensures Advect(dx, dx, dy)[i] == 0.0
    {
      if i == Center {
        CenterImpulseSamplesLeft();
      } else {
        AdvectKeepsStillCell(dx, dx, dy, i);
      }
    }
    assert Advect(dx, dx, dy) == Zeros();
    assert Advect(dy, dx, dy) == Zeros();
  }

  // ---------------------------------------------------------------------
  // Divergence.

  /**
   * Central difference at cell i over the four neighbours; a neighbour
   * outside the grid contributes 0.0.
   */
  function DivergenceAt(vx: seq<real>, vy: seq<real>, i: nat): real
    requires |vx| == Size && |vy| == Size && i < Size
  {
    var x, y := Column(i), Row(i);
    var right := if x + 1 < GridSize then vx[i + 1] else 0.0;
    var left := if x > 0 then vx[i - 1] else 0.0;
    var up := if y > 0 then vy[i - GridSize] else 0.0;
    var down := if y + 1 < GridSize then vy[i + GridSize] else 0.0;
    (right - left + down - up) * 0.5
  }

  function Divergence(vx: seq<real>, vy: seq<real>): (d: seq<real>)
    requires |vx| == Size && |vy| == Size
    ensures |d| == Size
  {
    seq(Size, i requires 0 <= i < Size => DivergenceAt(vx, vy, i))
  }

  /** The field v read at 2-D coordinates (x, y), and 0.0 off the grid. */
  function Padded(v: seq<real>, x: int, y: int): real
    requires |v| == Size
  {
    if 0 <= x < GridSize && 0 <= y < GridSize then v[y * GridSize + x] else 0.0
  }

  /**
   * The flat-index neighbours are the 2-D neighbours: divergence is half the
   * central differences of vx along x and vy along y over the zero-padded grid.
   */
  lemma DivergenceIsCentralDifference(vx: seq<real>, vy: seq<real>, i: nat)
    requires |vx| == Size && |vy| == Size && i < Size
    ensures var x, y := Column(i), Row(i);
            DivergenceAt(vx, vy, i)
            == 0.5 * ((Padded(vx, x + 1, y) - Padded(vx, x - 1, y)) + (Padded(vy, x, y + 1) - Padded(vy, x, y - 1)))
  {
    CellAddressing(i);
  }

  /** The cell's own velocity never enters its divergence. */
  lemma DivergenceIgnoresOwnCell(vx: seq<real>, vy: seq<real>, i: nat, a: real, b: real)
    requires |vx| == Size && |vy| == Size && i < Size
    ensures DivergenceAt(vx[i := a], vy[i := b], i) == DivergenceAt(vx, vy, i)
  {
  }

  /** The divergence of the zero field is zero everywhere. */
  lemma DivergenceOfZero()
    ensures Divergence(Zeros(), Zeros()) == Zeros()
  {
  }

  /**
   * A unit impulse (1, 1) at (64, 64) on the zero field: divergence 0.0 at the
   * impulse cell itself, +0.5 at (63, 64) and (64, 63), -0.5 at (65, 64) and
   * (64, 65), and 0.0 at every other cell.
   */
  lemma CenterImpulseDivergence()
    ensures var d := Divergence(Zeros()[Center := 1.0], Zeros()[Center := 1.0]);
            d[Center] == 0.0
            && d[Center - 1] == 0.5 && d[Center - GridSize] == 0.5
            && d[Center + 1] == -0.5 && d[Center + GridSize] == -0.5
            && forall i :: (0 <= i < Size && i != Center && i + 1 != Center && i != Center + 1
                             && i + GridSize != Center && i != Center + GridSize) ==> d[i] == 0.0
  {
  }

  // ---------------------------------------------------------------------
  // The solver state.

  /** Outcome of a bounds-checked impulse. */
  datatype ImpulseOutcome = Applied | OutOfRange

  class FluidGrid {
    var velocityX: array<real>
    var velocityY: array<real>
    var density: array<real>

    /** Three distinct arrays, each of one sample per cell. */
    ghost predicate Valid()
      reads this
    {
      velocityX.Length == Size && velocityY.Length == Size && density.Length == Size
      && velocityX != velocityY && velocityX != density && velocityY != density
    }

    /** The current velocity field. */
    ghost function Field(): (f: Velocity)
      reads this, velocityX, velocityY
      requires Valid()
      ensures Sized(f)
    {
      Velocity(velocityX[..], velocityY[..])
    }

    /** A grid whose three arrays are all zero. */
    constructor ()
      ensures Valid() && fresh(velocityX) && fresh(velocityY) && fresh(density)
      ensures velocityX[..] == Zeros() && velocityY[..] == Zeros() && density[..] == Zeros()
    {
      velocityX := new real[Size](_ => 0.0);
      velocityY := new real[Size](_ => 0.0);
      density := new real[Size](_ => 0.0);
    }

    /**
     * Adds (vx, vy) to the velocity at flat index y * GridSize + x. The index
     * alone is checked, so a column x >= GridSize addresses a cell of a
     * later row.
     */
    method AddVelocity(x: nat, y: nat, vx: real, vy: real)
      requires Valid()
      requires y * GridSize + x < Size
      modifies velocityX, velocityY
      ensures Valid()
      ensures velocityX[..] == old(velocityX[..])[y * GridSize + x := old(velocityX[y * GridSize + x]) + vx]
      ensures velocityY[..] == old(velocityY[..])[y * GridSize + x := old(velocityY[y * GridSize + x]) + vy]
      ensures density[..] == old(density[..])
    {
      var idx := y * GridSize + x;
      velocityX[idx] := velocityX[idx] + vx;
      velocityY[idx] := velocityY[idx] + vy;
    }

    /**
     * An impulse at cell (x, y) that is refused with OutOfRange, changing
     * nothing, unless both coordinates are on the grid.
     */
    method AddVelocityChecked(x: nat, y: nat, vx: real, vy: real) returns (r: ImpulseOutcome)
      requires Valid()
      modifies velocityX, velocityY
      ensures Valid()
      ensures r == (if x < GridSize && y < GridSize then Applied else OutOfRange)
      ensures r == Applied ==>
                velocityX[..] == old(velocityX[..])[FlatIndex(x, y) := old(velocityX[FlatIndex(x, y)]) + vx]
                && velocityY[..] == old(velocityY[..])[FlatIndex(x, y) := old(velocityY[FlatIndex(x, y)]) + vy]
      ensures r == OutOfRange ==> velocityX[..] == old(velocityX[..]) && velocityY[..] == old(velocityY[..])
      ensures density[..] == old(density[..])
    {
      if x < GridSize && y < GridSize {
        FlatIndexOfCell(x, y);
        AddVelocity(x, y, vx, vy);
        r := Applied;
      } else {
        r := OutOfRange;
      }
    }

    /**
     * One tick: damp both arrays in chunks, snapshot them, then advect the
     * x-array and the y-array from the snapshots. Density is untouched.
     */
    method VelocityStep()
      requires Valid()
      modifies velocityX, velocityY
      ensures Valid()
      ensures Field() == Step(old(Field()))
      ensures density[..] == old(density[..])
    {
      DampInChunks(velocityX);
      DampInChunks(velocityY);
      var vxSnapshot := velocityX[..];
      var vySnapshot := velocityY[..];
      AdvectInto(velocityX, vxSnapshot, vxSnapshot, vySnapshot);
      AdvectInto(velocityY, vySnapshot, vxSnapshot, vySnapshot);
    }

    /** A freshly allocated array holding the divergence of the current field; the grid is not changed. */
    method ComputeDivergence() returns (d: array<real>)
      requires Valid()
      ensures fresh(d)
      ensures d[..] == Divergence(velocityX[..], velocityY[..])
    {
      d := new real[Size](_ => 0.0);
      for i := 0 to Size
        invariant forall k :: 0 <= k < i ==> d[k] == DivergenceAt(velocityX[..], velocityY[..], k)
      {
        var x := i % GridSize;
        var y := i / GridSize;
        var right := if x + 1 < GridSize then velocityX[i + 1] else 0.0;
        var left := if x > 0 then velocityX[i - 1] else 0.0;
        var up := if y > 0 then velocityY[i - GridSize] else 0.0;
        var down := if y + 1 < GridSize then velocityY[i + GridSize] else 0.0;
        d[i] := (right - left + down - up) * 0.5;
      }
    }
  }

  // ---------------------------------------------------------------------
  // Clients: the solver's two unit scenarios and the column-overflow case,
  // proved from the methods' contracts alone.

  /** A unit x-impulse at (64, 64) followed by one step leaves the center's x-velocity below 1.0. */
  method VelocityDiffusionScenario() returns (centerX: real)
    ensures centerX < 1.0
  {
    var g := new FluidGrid();
    g.AddVelocity(64, 64, 1.0, 0.0);
    assert g.velocityX[..] == Zeros()[Center := 1.0];
    assert g.velocityY[..] == Zeros();
    g.VelocityStep();
    CenterImpulseVanishes();
    centerX := g.velocityX[Center];
    assert centerX == 0.0;
  }

  /**
   * A unit impulse (1, 1) at (64, 64): zero divergence at the cell itself,
   * +0.5 at its left and upper neighbours.
   */
  method DivergenceScenario() returns (atCenter: real, atLeft: real, atUp: real)
    ensures atCenter == 0.0 && atLeft == 0.5 && atUp == 0.5
  {
    var g := new FluidGrid();
    g.AddVelocity(64, 64, 1.0, 1.0);
    assert g.velocityX[..] == Zeros()[Center := 1.0];
    assert g.velocityY[..] == Zeros()[Center := 1.0];
    var d := g.ComputeDivergence();
    CenterImpulseDivergence();
    atCenter, atLeft, atUp := d[Center], d[Center - 1], d[Center - GridSize];
  }

  /** Column 130 of row 0 passes the flat-index bound and decodes to cell (2, 1). */
  lemma ColumnOverflowAliasesNextRow()
    ensures 0 * GridSize + 130 < Size
    ensures Column(0 * GridSize + 130) == 2 && Row(0 * GridSize + 130) == 1
  {
  }

  /**
   * An x-impulse at column 130 of row 0: the unchecked impulse writes it into
   * cell (2, 1), while the bounds-checked impulse refuses it and leaves the
   * field zero.
   */
  method ColumnOverflowScenario() returns (written: real, refused: ImpulseOutcome, untouched: bool)
    ensures written == 1.0
    ensures refused == OutOfRange && untouched
  {
    var g := new FluidGrid();
    g.AddVelocity(130, 0, 1.0, 0.0);
    ColumnOverflowAliasesNextRow();
    written := g.velocityX[FlatIndex(2, 1)];
    var h := new FluidGrid();
    refused := h.AddVelocityChecked(130, 0, 1.0, 0.0);
    untouched := h.velocityX[..] == Zeros() && h.velocityY[..] == Zeros();
  }
}
