# liquid.js fluid solver, modelled in Dafny

`assets/liquid.js` runs a grid-based fluid simulation on the GPU. Each frame
it reads the clock, recolours the pointers on a timer, drains the user input
into *splats* (Gaussian dabs of force and dye), and then, unless paused, runs
one solver *step*. A step is a fixed sequence of fragment-shader passes:

1. curl;
2. vorticity confinement;
3. divergence;
4. a pressure "clear" that scales the previous frame's pressure;
5. `PRESSURE_ITERATIONS` Jacobi iterations;
6. gradient subtraction;
7. velocity advection;
8. dye advection.

Velocity, pressure and dye are *double framebuffers*. Each pass renders into
the `write` slot and then swaps `read` and `write`.

This project models that core:

- **`Grid`**: textures are `seq<seq<T>>` grids, with row `j` as y and column
  `i` as x. A texture fetch one texel away from a texel centre is a
  clamp-to-edge index read. This is exact for the curl, divergence, pressure,
  gradient and vorticity shaders, whose fetches all land on texel centres.
  Also in this module: the clear/scale shader and its laws.
- **`Buffers`**: a framebuffer is a value `Target` carrying its GL name, size
  and texels. `DoubleFbo` is a class with `read`/`write` fields, `swap`, the
  two setters, `blit` into the write slot, and `resizeDoubleFBO`. It keeps a
  ghost count of swaps.
- **`Stencils`**: each shader `main` is a function of one texel, lifted to
  whole textures. `exp`, `length` and filtered sampling are uninterpreted
  functions in a `Gpu` record.
- **`StencilProperties`**: what the shaders do to zero and uniform fields.
  It also proves that the divergence shader's wall tests pick out exactly the
  edge texels, and that splats are additive and therefore commute.
- **`Solver`**: `step` and `splat` as functions on a `Fluid` value holding
  the five solver targets. `step` is built from three phases: `Confined`,
  `Projected` and `Advected`. This module also has the lists of splats that
  `multipleSplats` and the pointer loop of `applyInputs` apply, and lemmas
  composing them.
- **`Pointers`**: the pointer record as a class, with its down, move and up
  updates and the aspect-ratio corrections.
- **`Colors`**: `HSVtoRGB` and `generateColor` on reals.
- **`Sizing`**: `getResolution`, `Math.round`, and the 32-bit `>>` the bloom
  pyramid uses.
- **`Simulation`**: the globals as one class. Its methods are
  `initFramebuffers`, `initBloomFramebuffers`, `step` (split into its three
  phases plus the pressure loop), `splat`, `multipleSplats`, `splatPointer`,
  `applyInputs`, `calcDeltaTime`, `updateColors`, the `keydown` handler and
  the blend state `render` leaves.
  Each is proved against the `Solver` functions: for example,
  `State() == StepFluid(old(State()), …)`.

`initBloomFramebuffers` builds the pyramid in a local list, level by level as
liquid.js's `push` loop does. It then stores the list in `bloomFramebuffers`
(`Simulation.BloomTargets`), so one loop serves both the first allocation and
later resizes.

Environment inputs are parameters:

- `Date.now()` is `now`;
- every `Math.random()` draw is a `Random` real in [0, 1);
- `multipleSplats` receives its draws as a function from the splat index;
- the canvas and drawing-buffer sizes are a `Canvas` and two naturals.

The blend state is part of the model. `step` disables `BLEND` before its
first pass (assets/liquid.js:770). `render` enables it for the screen
(assets/liquid.js:845-847), and when `BLOOM` or `SUNRAYS` is on it last sets
`blendFunc(ONE, ONE)` (assets/liquid.js:883, 891). Both are on by default.
`applyInputs` runs before `step`, so from the second frame on the splat passes
(assets/liquid.js:994, 1000) run under additive blending. Each such pass leaves
the splatted read texture *plus* the old write texture in its target. The
`Simulation` class keeps this state in `additive`. `Solver.SplatFluid` takes
it as a parameter. Otherwise `render` leaves
`blendFunc(ONE, ONE_MINUS_SRC_ALPHA)`, which overwrites, because the splat
shader writes alpha 1 (assets/liquid.js:392). The other solver passes run after
`step` has disabled blending. See "## Findings".

liquid.js has no diffusion pass and no halo cells. Edges come only from
`CLAMP_TO_EDGE` addressing (assets/liquid.js:611-612) and from the divergence
shader's wall reflection (assets/liquid.js:427-430). The back-traced
coordinate of the advection shader (assets/liquid.js:408) is not clamped.

## Model

| member | source | states |
|---|---|---|
| Grid.Clamp | assets/liquid.js:611-612 | `CLAMP_TO_EDGE` addressing: an in-range index is kept, below 0 gives 0, past the end gives the last texel |
| Grid.Blank | assets/liquid.js:613-619 | a freshly cleared texture is a w×h grid with every texel zero |
| Grid.Scale | assets/liquid.js:231-233 | the clear shader returns a grid of the same shape, each texel multiplied by `u_value` |
| Grid.ScaleTwice | assets/liquid.js:231-233 | two clears with factors a then b equal one clear with b·a |
| Grid.ScaleByOne | assets/liquid.js:231-233 | a clear with `u_value` 1 (the resize copy) leaves the texture unchanged |
| Grid.BlendVec | assets/liquid.js:882-891 | additive blending of a velocity pass: each texel of the result is the shader output plus the framebuffer's old texel, and the shape is kept |
| Grid.BlendRgb | assets/liquid.js:882-891 | the same for a dye pass |
| Grid.ScaleZero | assets/liquid.js:231-233 | a clear of an all-zero texture stays all zero |
| Buffers.CreateFbo | assets/liquid.js:605-635 | `createFBO` gives a target with the requested name and size, all texels zero |
| Buffers.Resample | assets/liquid.js:662-669 | `resizeFBO` draws the old texture into the new size: texel (i, j) is the filtered sample at that texel's centre |
| Buffers.Slots.Pass | assets/liquid.js:784-785 | a pass (render into `write`, then swap) swaps the two names and keeps the pair valid and equal in size; the new read slot holds the rendered texels and the new write slot is the old read framebuffer, untouched |
| Buffers.SwapTwice | assets/liquid.js:654-658 | swapping a pair twice gives back the same pair |
| Buffers.DoubleFbo.constructor | assets/liquid.js:637-640 | `createDoubleFBO` gives two cleared framebuffers of the same size with distinct names |
| Buffers.DoubleFbo.Swap | assets/liquid.js:654-658 | `read` and `write` trade places; the swap count goes up by one |
| Buffers.DoubleFbo.SetRead | assets/liquid.js:645-647 | the `read` setter replaces `read` only |
| Buffers.DoubleFbo.SetWrite | assets/liquid.js:651-653 | the `write` setter replaces `write` only |
| Buffers.DoubleFbo.Blit | assets/liquid.js:784 | rendering into the write slot replaces its texels only; `read` is untouched |
| Buffers.DoubleFbo.Resize | assets/liquid.js:671-677 | at the current size both slots and the swap count are untouched; otherwise `read` becomes the resampled old texture and `write` a cleared one under new names, both at the new size |
| Buffers.SwapTwiceRestores | assets/liquid.js:654-658 | two `swap` calls restore both slots and add two to the count |
| Stencils.Curl | assets/liquid.js:444-451 | the curl texture has the velocity's shape; each texel is half of (R.y − L.y − T.x + B.x) of its clamped neighbours |
| Stencils.Divergence | assets/liquid.js:421-432 | the divergence texture has the velocity's shape; each texel is half of the central differences, with the neighbour across a wall replaced by the negated centre |
| Stencils.Vorticity | assets/liquid.js:465-477 | the confinement force from the curl's gradient magnitudes, normalised by `length + 0.0001`, times strength·curl, y negated, added to the velocity times dt |
| Stencils.Pressure | assets/liquid.js:489-498 | each texel is (L + R + B + T − divergence) / 4 |
| Stencils.GradientSubtract | assets/liquid.js:510-518 | each velocity texel minus half the central pressure differences |
| Stencils.SplatWeight | assets/liquid.js:388-390 | the weight is `exp(0)` at the splat point and, for a positive radius, `exp` of a non-positive exponent everywhere |
| Stencils.SplatVelocity | assets/liquid.js:387-393 | each velocity texel plus the Gaussian weight at its centre times the force |
| Stencils.SplatDye | assets/liquid.js:387-393 | each dye texel plus the Gaussian weight at its centre times the colour |
| Stencils.BackTrace | assets/liquid.js:408 | with no time step or no sampled velocity the sample is taken at the texel itself; a zero texel size on one axis leaves that coordinate alone |
| Stencils.AdvectVelocity | assets/liquid.js:407-410 | each texel is `dissipation` times the velocity sampled at the back-traced coordinate |
| Stencils.AdvectDye | assets/liquid.js:407-410 | each dye texel is `dissipation` times the dye sampled where the velocity back-traces it |
| StencilProperties.WallTexels | assets/liquid.js:427-430 | `v_texcoord < texelSize` holds exactly at the first texel and `v_texcoord > 1 − texelSize` exactly at the last |
| StencilProperties.CurlOfUniform | assets/liquid.js:449 | a uniform velocity field has zero curl everywhere, edges included |
| StencilProperties.DivergenceOfZero | assets/liquid.js:422-431 | the zero velocity field has zero divergence everywhere, walls included |
| StencilProperties.DivergenceOfUniformInterior | assets/liquid.js:431 | away from the walls a uniform flow has zero divergence |
| StencilProperties.DivergenceAtLeftWall | assets/liquid.js:427 | at the left wall a uniform flow's divergence is its x component (the wall reflection at work) |
| StencilProperties.VorticityAtCurlFreeTexel | assets/liquid.js:474-476 | at any texel whose own curl is zero, confinement leaves the velocity unchanged, whatever the neighbours' curl |
| StencilProperties.VorticityOfCurlFree | assets/liquid.js:471-476 | a field whose curl is zero everywhere gets no confinement force anywhere |
| StencilProperties.PressureOfUniform | assets/liquid.js:496 | a uniform pressure with zero divergence is a fixed point of the Jacobi update |
| StencilProperties.GradientOfUniform | assets/liquid.js:516 | subtracting the gradient of a uniform pressure leaves the velocity unchanged |
| StencilProperties.VelocitySplatsCommute | assets/liquid.js:390-392 | two velocity splats in either order give the same texture |
| StencilProperties.DyeSplatsCommute | assets/liquid.js:390-392 | two dye splats in either order give the same texture |
| StencilProperties.SplatVelocityOfBlend | assets/liquid.js:390-392 | splatting a blended velocity texture is blending the splatted texture with the same destination |
| StencilProperties.SplatDyeOfBlend | assets/liquid.js:390-392 | the same for the dye |
| StencilProperties.SplatPeak | assets/liquid.js:388-390 | for an increasing `exp`, the splat weight is largest, `exp(0)`, at the splat point |
| StencilProperties.SplatOfNoForce | assets/liquid.js:390-392 | a splat with zero force leaves the velocity texture unchanged |
| StencilProperties.AdvectVelocityOfZero | assets/liquid.js:408-409 | advecting the zero velocity field gives the zero field |
| StencilProperties.AdvectDyeOfZero | assets/liquid.js:408-409 | advecting all-zero dye along any velocity gives all-zero dye |
| StencilProperties.AdvectDyeStill | assets/liquid.js:408-409 | along a zero velocity (with a sampler exact at texel centres) dye advection only multiplies each texel by `dissipation` |
| Pointers.CorrectDeltaX | assets/liquid.js:1103-1108 | the corrected delta is never larger in magnitude, is zero exactly when the delta is, keeps its sign, and is unchanged unless the canvas is portrait |
| Pointers.CorrectDeltaY | assets/liquid.js:1110-1115 | the same, unchanged unless the canvas is landscape |
| Pointers.CorrectRadius | assets/liquid.js:1006-1011 | multiplied by the aspect ratio on a landscape canvas, otherwise unchanged; a non-negative radius never shrinks and a positive one stays positive |
| Pointers.TexcoordX | assets/liquid.js:1080 | a pixel inside the canvas maps into [0, 1] |
| Pointers.TexcoordY | assets/liquid.js:1081 | Y is flipped: the top row maps to 1, the bottom to 0, and the inside into [0, 1] |
| Pointers.Pointer.constructor | assets/liquid.js:44-55 | `new pointerPrototype()`: id −1, not pressed, not moved, zero coordinates and deltas |
| Pointers.Pointer.UpdateDown | assets/liquid.js:1076-1087 | pressed and not moved; previous position equals current; deltas zero; Y flipped; new colour of the drawn hue |
| Pointers.Pointer.UpdateMove | assets/liquid.js:1089-1097 | old position becomes previous; deltas are the corrected differences and no larger than them; `moved` holds exactly when the position changed; id, `down` and colour kept |
| Pointers.Pointer.UpdateUp | assets/liquid.js:1099-1101 | only `down` changes, to false |
| Pointers.PressThenStay | assets/liquid.js:1076-1097 | a press followed by a move to the same pixel leaves the pointer pressed and not moved, with zero deltas |
| Colors.HsvToRgb | assets/liquid.js:1125-1147 | a value of zero gives black, whatever the hue and saturation |
| Colors.HsvGrey | assets/liquid.js:1128-1131 | with saturation zero every hue gives the grey 255·v in all three channels |
| Colors.SectorColorOfBlack | assets/liquid.js:1129-1146 | a value of zero is black in every sector |
| Colors.HsvExtremes | assets/liquid.js:1125-1147 | for s in [0, 1] and v ≥ 0 the brightest channel is 255·v and the darkest 255·v·(1 − s) |
| Colors.SectorColorExtremes | assets/liquid.js:1129-1146 | the same, for any sector and any position f in [0, 1) within it |
| Colors.SectorValues | assets/liquid.js:1128-1131 | inside a sector, q and t lie between p and v |
| Colors.SectorExtremes | assets/liquid.js:1133-1140 | in each of the six cases, v is the largest channel and p the smallest |
| Colors.GenerateColor | assets/liquid.js:1117-1123 | a generated colour has one channel at 0.15·255 = 38.25, one at 0, and all in between |
| Colors.DimExtremes | assets/liquid.js:1119-1121 | dimming to 15 % maps a colour spanning 0..255 to one spanning 0..38.25 |
| Sizing.Round | assets/liquid.js:596-597 | `Math.round`: the integer r with r ≤ x + 0.5 < r + 1 |
| Sizing.GetResolution | assets/liquid.js:591-603 | the rounded `resolution` goes on the shorter axis and the rounded resolution·ratio on the longer; the longer axis is never smaller, and a resolution ≥ 0.5 gives at least one texel per axis |
| Sizing.RatioFacts | assets/liquid.js:592-594 | the ratio after the `< 1` inversion is at least 1 and is long side over short side |
| Sizing.RoundFacts | assets/liquid.js:596-597 | `max` is never below `min`, and `min` is at least 1 for a resolution ≥ 0.5 |
| Sizing.ToInt32 | assets/liquid.js:691-692 | ECMAScript ToInt32: the result is in the signed 32-bit range, congruent to x modulo 2^32, and x itself when x already fits |
| Sizing.ShiftRight | assets/liquid.js:691-692 | `x >> k` is a signed 32-bit value with the sign of ToInt32(x), and ToInt32(x) itself for a count that is a multiple of 32 |
| Sizing.QuotientBounds | assets/liquid.js:691-692 | an arithmetic shift, division by a positive power of two, moves a value towards zero and keeps its sign |
| Sizing.ShiftRightIsDivision | assets/liquid.js:691-692 | for non-negative 32-bit x and k < 32, `x >> k` is floor(x / 2^k) |
| Sizing.BloomLevelsShrink | assets/liquid.js:689-694 | later pyramid levels are no larger, so once a level is below 2 every later one is too: the `break` loses no level |
| Solver.Iterations | assets/liquid.js:801 | a `for (i = 0; i < n; i++)` loop runs n times for n ≥ 0 and not at all otherwise |
| Solver.PressureSolve | assets/liquid.js:798-805 | n Jacobi passes keep the pair valid and sized; the read slot is the original read framebuffer for even n and the original write one for odd n |
| Solver.Confined | assets/liquid.js:773-785 | curl then vorticity: the fluid stays valid and sized, velocity is swapped once, pressure, dye and divergence are unchanged |
| Solver.Projected | assets/liquid.js:787-812 | divergence, clear, Jacobi loop, gradient subtraction: velocity swapped once, the pressure names at the parity of 1 + `PRESSURE_ITERATIONS` swaps, curl and dye unchanged |
| Solver.Advected | assets/liquid.js:814-834 | velocity swapped once and dye swapped once; pressure, divergence and curl unchanged |
| Solver.StepFluid | assets/liquid.js:769-835 | `step` keeps the fluid valid and every size; velocity ends swapped (3 swaps), dye swapped (1), pressure at the parity of 1 + `PRESSURE_ITERATIONS` swaps; divergence and curl keep their names |
| Solver.PressureSolveOfZero | assets/liquid.js:801-805 | Jacobi iterations from zero pressure with zero divergence leave both slots all zero |
| Solver.StepOfRest | assets/liquid.js:769-835 | a fluid at rest (zero velocity, pressure and dye) ends a step with every texture zero, stale write slots included |
| Solver.Steps | assets/liquid.js:719-720 | any number of frames' steps keep the fluid valid and every size |
| Solver.StepsOfRest | assets/liquid.js:719-720 | a fluid at rest stays at rest however many frames are stepped |
| Solver.SplatRadius | assets/liquid.js:995 | the radius the splat shader divides by is positive |
| Solver.DefaultsValid | assets/liquid.js:16-42 | the initial configuration is valid, and with `BLOOM` and `SUNRAYS` on, `render` leaves additive blending behind |
| Solver.SplatVelocityOutput | assets/liquid.js:988-994 | what the velocity splat pass leaves in the write slot: the splatted read texture with blending off, or that plus the old write texels under additive blending |
| Solver.SplatDyeOutput | assets/liquid.js:997-1000 | the same for the dye splat pass, with the colour scaled from 0..255 to 0..1 |
| Solver.SplatFluid | assets/liquid.js:988-1004 | a splat keeps the fluid valid and sized, swaps velocity and dye once each (the new write slots are the old read framebuffers, untouched), and leaves pressure, divergence and curl alone |
| Solver.Splats | assets/liquid.js:977-986 | splats applied in list order, under one blend state, keep the fluid valid and sized and leave pressure, divergence and curl alone |
| Solver.SplatsSnoc | assets/liquid.js:978-985 | one more splat after a list is the extended list |
| Solver.SplatsAppend | assets/liquid.js:756-767 | applying two lists in turn is applying their concatenation |
| Solver.SplatOrderIrrelevant | assets/liquid.js:988-1004 | two splats in either order show the same velocity and dye, with blending off or additive |
| Solver.VelocityOrderIrrelevant | assets/liquid.js:988-995 | two velocity splat passes in either order leave the same read texture, with blending off or additive |
| Solver.DyeOrderIrrelevant | assets/liquid.js:997-1001 | two dye splat passes in either order leave the same read texture, with blending off or additive |
| Solver.BlendedSplatMovesFluid | assets/liquid.js:988-994 | under additive blending a splat with no force sets a velocity texel to the sum of the read and write slots there, so the velocity changes wherever the write slot is nonzero |
| Solver.SplatWithoutForce | assets/liquid.js:988-997 | a splat with zero (dx, dy) leaves the velocity texels unchanged with blending off; under additive blending the velocity becomes the sum of the read and the old write slot |
| Solver.PointerSplat | assets/liquid.js:971-975 | the splat sits at the pointer's texture coordinates in its colour, and its force points along the pointer's delta (the delta itself for a force factor of 1) |
| Solver.PointerSplats | assets/liquid.js:760-766 | at most one splat per pointer, and none when no pointer moved |
| Solver.PointerSplatsStep | assets/liquid.js:760-766 | visiting one more pointer adds its splat exactly when it moved |
| Solver.RandomSplat | assets/liquid.js:979-984 | a random splat lies in [0, 1)², has force within ±500 per axis, and has the generated colour of its hue |
| Solver.RandomSplats | assets/liquid.js:977-986 | `multipleSplats(n)` makes exactly n splats, splat k from draw k |
| Solver.RandomSplatsStep | assets/liquid.js:978-985 | one more loop iteration applies one more random splat |
| Simulation.DeltaTime | assets/liquid.js:725-731 | the time step is the elapsed seconds capped at 0.016666 |
| Simulation.LeadingDigit | assets/liquid.js:1073 | the first digit of a positive number below 10 is 1 to 9, and its integer part once the number is at least 1 |
| Simulation.ParseInt | assets/liquid.js:1073 | `parseInt` of a number: its integer part when it is 0 or at least 10^-6, its first digit, 1 to 9, when it is written in exponential form below 10^-6 |
| Simulation.BurstSize | assets/liquid.js:1073 | a space-bar burst has 5 to 24 splats: floor(20·r) + 5 unless 20·r is positive and below 10^-6, where the exponential form gives 6 to 14 |
| Simulation.TinyDrawBurst | assets/liquid.js:1073 | a draw of 3·10^-8 gives `6e-7`, so the burst has 11 splats rather than 5 |
| Simulation.QueuedSplats | assets/liquid.js:757-758 | no splats for an empty queue; otherwise as many as the top entry says |
| Simulation.BloomTargets | assets/liquid.js:679-699 | the bloom target at the bloom resolution; at most `BLOOM_ITERATIONS` levels; level k at the base size shifted right by k + 1 with both sides ≥ 2; fewer levels only when the next one is too small |
| Simulation.Simulation.InitBloomFramebuffers | assets/liquid.js:679-699 | the same pyramid stored in `bloom`/`bloomFramebuffers`, named from the next unused framebuffer name on |
| Simulation.Simulation.constructor | assets/liquid.js:57-59 | start-up: one initial pointer and an empty queue, then the first `initFramebuffers`: every solver texture zero at the simulation and dye resolutions, and the bloom pyramid; timer 0, the clock at `now` and blending off |
| Simulation.Simulation.InitFramebuffers | assets/liquid.js:563-589 | after a resize the solver targets are at the new resolutions, pressure, divergence and curl are cleared, and the bloom pyramid is rebuilt; velocity and dye keep their objects, and each keeps its pair when its size is unchanged and otherwise holds its old read texture resampled, with a cleared write slot, under new names |
| Simulation.Simulation.ResizeSolverTargets | assets/liquid.js:573-585 | dye and velocity are left as they were when their size is unchanged; otherwise the read slot holds the old read texture resampled to the new size and the write slot is cleared, under new names; divergence, curl and pressure are created at the simulation size, cleared, under new names |
| Simulation.Simulation.ConfineVorticity | assets/liquid.js:773-785 | the state becomes `Confined` of the old state; velocity swapped once |
| Simulation.Simulation.Project | assets/liquid.js:787-812 | the state becomes `Projected` of the old state; velocity swapped once, pressure 1 + `PRESSURE_ITERATIONS` times |
| Simulation.Simulation.SolvePressure | assets/liquid.js:798-805 | the pressure pair becomes `PressureSolve` of the old pair, one swap per iteration |
| Simulation.Simulation.Advect | assets/liquid.js:814-834 | the state becomes `Advected` of the old state; velocity and dye swapped once |
| Simulation.Simulation.Step | assets/liquid.js:769-835 | blending is turned off and the state becomes `StepFluid` of the old state; velocity swapped 3 times, pressure 1 + `PRESSURE_ITERATIONS`, dye once |
| Simulation.Simulation.ApplySplat | assets/liquid.js:988-1004 | the state becomes `SplatFluid` of the old state under the current blend state; velocity and dye swapped once |
| Simulation.Simulation.Render | assets/liquid.js:845-891 | after `render` of the screen, blending is additive exactly when `BLOOM` or `SUNRAYS` is on |
| Simulation.Simulation.MultipleSplats | assets/liquid.js:977-986 | the state becomes `Splats` of the `amount` random splats (none for a negative amount) under the current blend state; one swap each per splat |
| Simulation.Simulation.SplatPointer | assets/liquid.js:971-975 | the pointer's splat, under the current blend state: its delta times `SPLAT_FORCE` at its position in its colour |
| Simulation.Simulation.ApplyPointer | assets/liquid.js:761-765 | a moved pointer has `moved` cleared and is splatted under the current blend state; an unmoved one changes nothing |
| Simulation.Simulation.ApplyQueued | assets/liquid.js:757-758 | a non-empty queue loses exactly its top entry and that many random splats are applied under the current blend state; an empty queue stays empty; the pointer records are untouched |
| Simulation.Simulation.ApplyPointers | assets/liquid.js:760-766 | every moved pointer is splatted once, in list order, under the current blend state; afterwards no pointer is moved and no other pointer field has changed |
| Simulation.InputsCompose | assets/liquid.js:756-767 | the queued burst followed by the pointer splats is the fold of the concatenated list |
| Simulation.Simulation.ApplyInputs | assets/liquid.js:756-767 | the queue pops at most one entry; the fluid receives the queued burst followed by the moved pointers' splats, all under the blend state the last `render` or `step` left; every `moved` flag is cleared and nothing else about the pointers changes |
| Simulation.Simulation.CalcDeltaTime | assets/liquid.js:725-731 | returns `DeltaTime(now, last)` (at most 0.016666) and sets the clock to `now` |
| Simulation.Simulation.UpdateColors | assets/liquid.js:744-754 | with `COLORFUL` off nothing changes; otherwise the timer advances and, on reaching 1, resets to 0 while every pointer gets a new colour and keeps every other field |
| Simulation.Simulation.Recolour | assets/liquid.js:750-752 | pointer k takes the colour of hue k and keeps every other field |
| Simulation.Simulation.KeyDown | assets/liquid.js:1069-1074 | `KeyP` toggles `PAUSED` and nothing else in the configuration; space pushes one burst size of 5 to 24; other keys change nothing |
| Simulation.PauseTwice | assets/liquid.js:1070-1071 | pressing `P` twice restores the configuration and the queue |

## Left out

- The frame driver `update` and `requestAnimationFrame` (assets/liquid.js:712-723) are left out. They only sequence the operations modelled here, and `Solver.Steps` states the repeated step.
- Simulation.Simulation.Render models only the GL blend state that `render` leaves behind, which the next frame's splat passes run under. What `render`, `applyBloom`, `applySunrays` and `initSunraysFramebuffers` draw is left out: they write only the screen and the bloom and sunrays targets, which no solver pass reads.
- Simulation.Simulation.ResizeSolverTargets resamples without the blend state. Under additive blending its passes add the resampled texture to a freshly cleared target, which is the same result.
- The WebGL calls are left out: context and extension probing, shader compilation, `GLProgram`, `blit`'s vertex setup and texture parameters. Framebuffers are modelled as a name, a size and a grid of texels.
- The mobile and no-linear-filtering overrides of `config` (assets/liquid.js:63-71) are left out. The constructor takes the configuration as a parameter, and `Solver.Defaults` holds the initial values.
- The DOM handlers' pointer lookup (`pointers.find`, assets/liquid.js:1013-1067) is left out; only the updates they call are modelled. In liquid.js a pointer created by `new pointerPrototype()` inside a handler is never added to `pointers`.
- `scaleByPixelRatio`, `resizeCanvas` and `isMobile` are left out. They read browser state, so canvas sizes are parameters.
- Floats are modelled as exact reals. IEEE and half-float rounding, `mediump` precision and the alpha channel of the textures are not modelled.
- `exp`, `length` and filtered texture sampling are uninterpreted functions (`Gpu`). Lemmas that need more assume only the named properties: a non-negative `length`, an increasing `exp`, samplers that give zero on zero textures and the texel itself at a texel centre.
- The `u_dyeTexelSize` uniform set when linear filtering is missing (assets/liquid.js:816-817, 828-829) is left out. The advection shader declares no such uniform, so setting it has no effect.
- `Math.random()`, `Date.now()` and the canvas sizes are parameters: a `Random` value per draw, `now`, and a `Canvas`.
- Colors.HsvToRgb requires a non-negative hue. For a negative hue liquid.js's `i % 6` is negative and matches no `case`, so its channels are undefined. Every caller draws the hue from `Math.random()`.
- Pointers.Canvas.Valid requires a canvas of positive width and height, and Simulation.Simulation.constructor and Simulation.Simulation.InitFramebuffers require a positive drawing-buffer size. `scaleByPixelRatio` (assets/liquid.js:1149-1152) can floor a client size to 0, and liquid.js then computes with Infinity or NaN; the model does not cover a zero-size canvas.
- Simulation.ParseInt handles numbers below 10^21 only; `Math.random() * 20` is always below 20. Its digits are those of the exact real, not of the shortest decimal form of the nearest double.
- Simulation.Simulation.constructor requires `Config.Valid()`: resolutions of at least 0.5 and a positive splat radius. Smaller resolutions round to empty textures, whose texel size divides by zero. liquid.js does not check this.
- Pointers.Initial models the prototype's colour array `[30, 0, 300]` as an `Rgb` record. In liquid.js `color.r` of that array is undefined. No path splats a pointer before a press has replaced its colour.
- Simulation.Simulation.UpdateColors takes one pre-drawn hue per pointer instead of calling `Math.random()` inside the loop.
- Simulation.Simulation.MultipleSplats takes its random draws as a function from the splat index, five `Random` values per splat.

## Findings

| source | as written | input that shows it | evidently intended | confidence | as-written member | corrected member |
|---|---|---|---|---|---|---|
| assets/liquid.js:988-1000 | `splat` does not set the blend state (`render` sets it at assets/liquid.js:845-891). It runs in `applyInputs` before `step` disables `BLEND`, so after a `render` with `BLOOM` or `SUNRAYS` on, each splat pass adds the old write texture to its output | the default configuration, any frame after the first, a random splat with zero force (draws dx = dy = 0.5) while the velocity write slot holds a nonzero texel: the velocity there becomes read + write instead of read | a splat pass writes the read texture plus the Gaussian only, as it does on the first frame | not executed; medium | Solver.BlendedSplatMovesFluid | Solver.SplatWithoutForce |

The `Simulation` class follows liquid.js as written: its splat methods run
under `additive`. The corrected behaviour is `Solver.SplatFluid` with
`additive` false, the state a `gl.disable(gl.BLEND)` at the top of `splat`
would give. For that state, `Solver.SplatWithoutForce` proves the intended
property: a splat with no force leaves the velocity unchanged.
`Solver.SplatOrderIrrelevant` holds in both states.
