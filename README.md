# FluidGrid: a verified model of the grid velocity-field solver

This project models `FluidGrid` in `physicsengine/src/fluids.rs`, the 2-D velocity-field solver. The grid is square, with
`GridSize = 128` cells per side. Cell `(x, y)` sits at flat index `y * 128 + x`.
The solver owns three flat arrays, one sample per cell: x-velocity, y-velocity and
density. It has four operations:

- construction, where all three arrays start at zero;
- an additive velocity impulse at one cell;
- a per-tick step that runs two stages in order:
  - damping: each velocity sample is multiplied by `Viscosity = 0.001`, in chunks of four lanes;
  - nearest-cell semi-Lagrangian advection: for each cell, step back by `v * Dt` (with `Dt = 0.01`), clamp to the grid, truncate to a cell, and copy the value found there in a snapshot taken after damping;
- a divergence query: a central difference over the four neighbours, written to a freshly allocated array, where neighbours off the grid count as zero.

Everything is in the single module `Fluids` (`fluids.dfy`). The pure functions `Damped`, `Advect`,
`Step`, `SourceIndex`, `DivergenceAt` and `Divergence` state what each stage computes.
The class `FluidGrid` keeps the three arrays. Its methods use loops over those arrays and are
proved against the functions. Facts about the stages are proved as lemmas over the functions.
Velocities are Dafny `real`s. The cast `as usize` that follows the clamp is the integer part
of a value already known to be non-negative.

The two unit tests are written as client methods. They call `AddVelocity` as the tests call `add_velocity`, and use only the methods' contracts:
- `VelocityDiffusionScenario` covers the test at lines 95-102.
- `DivergenceScenario` covers the test at lines 105-111.

The model follows the code where the code differs from the test at fluids.rs:110.
That test expects positive divergence at the impulse cell. But the divergence formula
(fluids.rs:79-84) never reads the cell's own velocity, so the value there is `0.0`.
`CenterImpulseDivergence` proves the values that actually come out: `0.0` at the cell,
`+0.5` at the left and upper neighbours, `-0.5` at the right and lower ones, and `0.0` everywhere else.

## Model

| member | source | states |
|---|---|---|
| `Fluids.FluidGrid.constructor` | physicsengine/src/fluids.rs:17-24 | three fresh, distinct arrays of GridSize*GridSize samples, all zero |
| `Fluids.FluidGrid.AddVelocity` | physicsengine/src/fluids.rs:27-31 | when the flat index y*GridSize+x is in range, vx and vy are added at that index only; every other cell, the density array and all lengths stay the same |
| `Fluids.FluidGrid.AddVelocityChecked` | physicsengine/src/fluids.rs:27-31 | bounds-checked impulse: Applied exactly when x < GridSize and y < GridSize, and then only cell (x, y) gains (vx, vy); otherwise OutOfRange and nothing changes |
| `Fluids.FlatIndexOfCell` | physicsengine/src/fluids.rs:28 | an in-range cell has a flat index below GridSize*GridSize, and its column and row are recovered from that index |
| `Fluids.CellAddressing` | physicsengine/src/fluids.rs:55-56 | every flat index below GridSize*GridSize is the address of the cell (i % GridSize, i / GridSize), and both coordinates are on the grid |
| `Fluids.Damped` | physicsengine/src/fluids.rs:41 | reference definition of damping: every sample multiplied by Viscosity; its contract states that the length is kept |
| `Fluids.DampInChunks` | physicsengine/src/fluids.rs:38-49 | processing a length that is a multiple of 4 chunk by chunk, lane by lane, gives the same result as multiplying each element by Viscosity |
| `Fluids.DampingAttenuates` | physicsengine/src/fluids.rs:41 | damping never increases a sample's magnitude, and strictly shrinks every nonzero sample |
| `Fluids.DampedZeros` | physicsengine/src/fluids.rs:38-49 | damping the zero field gives the zero field |
| `Fluids.Clamp` | physicsengine/src/fluids.rs:57-58 | `max(0.0).min(hi)` lands in [0, hi]: identity inside, 0 below, hi above |
| `Fluids.Truncate` | physicsengine/src/fluids.rs:59 | the cast of a non-negative coordinate gives the integer k with k <= v < k + 1 |
| `Fluids.BacktrackCoord` | physicsengine/src/fluids.rs:57-59 | the backtracked, clamped and truncated coordinate is a cell number below GridSize, whatever the velocity |
| `Fluids.SourceIndex` | physicsengine/src/fluids.rs:55-59 | for any velocity, the advection source index lies in [0, GridSize*GridSize) |
| `Fluids.BacktrackInside` | physicsengine/src/fluids.rs:57-59 | when the backtracked position is on the grid, the source coordinate is the cell that contains it (clamping changes nothing) |
| `Fluids.StillCellSamplesItself` | physicsengine/src/fluids.rs:55-59 | a cell whose velocity is (0, 0) has its own index as source index |
| `Fluids.CornerSaturates` | physicsengine/src/fluids.rs:57-59 | at corner (0, 0), a non-negative velocity backtracks to the corner or beyond it, and the source index saturates to 0 |
| `Fluids.Advect` | physicsengine/src/fluids.rs:54-61 | reference definition of one advection pass: cell i takes the field's value at `SourceIndex(i, vx[i], vy[i])`; its contract states that the result has one sample per cell |
| `Fluids.AdvectSamplesField` | physicsengine/src/fluids.rs:54-61 | each advected value equals a value of the snapshot at some in-grid index |
| `Fluids.AdvectKeepsStillCell` | physicsengine/src/fluids.rs:54-61 | a cell whose snapshot velocity is (0, 0) keeps its snapshot value |
| `Fluids.AdvectStillField` | physicsengine/src/fluids.rs:54-70 | advection with the all-zero velocity field is the identity on the advected field |
| `Fluids.AdvectInto` | physicsengine/src/fluids.rs:54-70 | the advection pass writes into each cell the snapshot value at that cell's source index; the index comes from the snapshot velocities, never from values written earlier in the pass |
| `Fluids.Step` | physicsengine/src/fluids.rs:34-70 | reference definition of one tick: damp both components, then advect each from the damped pair; its contract states that both components keep one sample per cell |
| `Fluids.FluidGrid.VelocityStep` | physicsengine/src/fluids.rs:34-71 | the new field is `Step` of the old one: damping, then both passes advected from the post-damping snapshot with one shared source index; density is unchanged |
| `Fluids.StepSamplesDampedField` | physicsengine/src/fluids.rs:34-70 | after a step, both components at cell i are the damped old values at the same source index, computed from the damped velocity at i |
| `Fluids.StepPreservesZero` | physicsengine/src/fluids.rs:34-71 | a step on the all-zero field leaves it all-zero |
| `Fluids.CenterImpulseSamplesLeft` | physicsengine/src/fluids.rs:95-102 | after damping, the unit x-impulse at (64, 64) backtracks to the neighbouring cell (63, 64) |
| `Fluids.CenterImpulseVanishes` | physicsengine/src/fluids.rs:95-102 | a unit x-impulse at (64, 64) on the zero field, followed by one step, leaves the whole field zero, so the center's x-velocity is below 1.0 |
| `Fluids.DivergenceAt` | physicsengine/src/fluids.rs:77-84 | reference definition of the divergence at one cell, written with the flat-index neighbour tests; its 2-D meaning is stated by `DivergenceIsCentralDifference` |
| `Fluids.Divergence` | physicsengine/src/fluids.rs:74-87 | reference definition of the divergence field, `DivergenceAt` at every cell; its contract states that the result has one sample per cell |
| `Fluids.FluidGrid.ComputeDivergence` | physicsengine/src/fluids.rs:74-87 | a freshly allocated array whose every cell holds `DivergenceAt` of the current field; the grid is not modified |
| `Fluids.DivergenceIsCentralDifference` | physicsengine/src/fluids.rs:77-84 | the flat-index neighbours are the 2-D neighbours: divergence is 0.5*((vx(x+1,y) - vx(x-1,y)) + (vy(x,y+1) - vy(x,y-1))) over a zero-padded grid |
| `Fluids.DivergenceIgnoresOwnCell` | physicsengine/src/fluids.rs:79-84 | changing a cell's own velocity never changes that cell's divergence |
| `Fluids.DivergenceOfZero` | physicsengine/src/fluids.rs:74-87 | the divergence of the zero field is zero everywhere |
| `Fluids.CenterImpulseDivergence` | physicsengine/src/fluids.rs:105-111 | for a unit impulse (1, 1) at (64, 64): 0.0 at the cell itself, +0.5 at (63, 64) and (64, 63), -0.5 at (65, 64) and (64, 65), and 0.0 at every other cell |
| `Fluids.ColumnOverflowAliasesNextRow` | physicsengine/src/fluids.rs:28 | the column 130 in row 0 passes the flat-index bound and addresses cell (2, 1) |
| `Fluids.VelocityDiffusionScenario` | physicsengine/src/fluids.rs:95-102 | on a fresh grid, `AddVelocity(64, 64, 1.0, 0.0)` followed by `VelocityStep` leaves the center's x-velocity below 1.0 |
| `Fluids.DivergenceScenario` | physicsengine/src/fluids.rs:105-111 | on a fresh grid, after `AddVelocity(64, 64, 1.0, 1.0)`, `ComputeDivergence` gives 0.0 at the impulse cell and +0.5 at (63, 64) and (64, 63) |
| `Fluids.ColumnOverflowScenario` | physicsengine/src/fluids.rs:27-31 | `AddVelocity(130, 0, 1.0, 0.0)` on a fresh grid writes 1.0 into cell (2, 1); `AddVelocityChecked(130, 0, 1.0, 0.0)` on another fresh grid returns OutOfRange and leaves both velocity arrays zero |

## Left out

- Rayon and `std::simd` parallelism (fluids.rs:1-2, 39, 45, 54, 63, 76). These are modelled as sequential loops. Every parallel task writes only its own indices, and advection reads only the snapshots, so the order of the loops does not affect the result.
- IEEE-754 behaviour. Velocities are exact reals, so the model has no rounding, no NaN or infinity, no special handling of NaN by `f64::max`/`min`, and no saturating float-to-`usize` cast.
- Machine-width integers. `y * 128 + x` cannot overflow `usize` in the model, because `AddVelocity` requires the index to be below 128*128.
- Density. No operation changes it; the model keeps it as an inert array, and `AddVelocity`, `AddVelocityChecked` and `VelocityStep` prove it unchanged.
- The assertion at fluids.rs:110 (positive divergence at the impulse cell) is not proved, because by fluids.rs:79-84 the value is 0.0. `CenterImpulseDivergence` states the actual values.
- `physicsengine/src/kinematics.rs`, `nbody.rs`, `rigid_body.rs`, `lib.rs` and the Python wrappers and examples are not part of this model. They hold floating-point formulas, a foreign linear-algebra library and binding glue.

## Findings

| source | as written | input that shows it | evidently intended | confidence | as-written member | corrected member |
|---|---|---|---|---|---|---|
| physicsengine/src/fluids.rs:27-31 | only the flat index `y * 128 + x` is bounds-checked (by the `Vec` index), so a column of 128 or more silently writes a cell of a later row | `add_velocity(130, 0, vx, vy)` updates cell (2, 1) | an impulse "at a specific grid cell": coordinates outside `[0, 128)` are refused | medium, not executed | `Fluids.FluidGrid.AddVelocity`, exhibited by `Fluids.ColumnOverflowScenario` | `Fluids.FluidGrid.AddVelocityChecked` |
