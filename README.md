# deciball frame engine in Dafny

deciball is an audio visualiser. On every animation frame it reads a snapshot
of the analyser's frequency bins and moves a ring and a cloud of flying
particles. This project models that per-frame geometry update in its three
variants and proves properties of it:

- `src/App.tsx` and `src/components/App/App.js`: a 48-point ring driven by a
  float (dBFS) snapshot, and 360 particle slots. Slots 0..179 own their
  particles and slots 359..180 hold mirror copies.
- `src/components/Visualiser/Visualiser.js`: two 32-point rings (primary and
  secondary) driven by a byte snapshot, and 360 unmirrored slots.

Modules:

- `Numeric` (`numeric.dfy`): `Math.pow` with a whole exponent, `Math.max`,
  `Math.min`, and the sum and mean of `map(...).reduce(...) / length`.
- `Geometry` (`geometry.dfy`): the `RingPoint`, `Particle` and slot records,
  reflection around the centre, the ±5° drift step limited to ±60°, the
  viewport test, and `splice`.
- `Ring` (`ring.dfy`): the ring loop of `updateCoordinates`, shared by every
  variant. `UpdateRing` updates an array in place and is proved against
  `RingAfter`. Lemmas about `RingAfter` cover the mirror relation, the
  self-mirrored point K/2, the never-written right-half factors, and the
  loudness floor.
- `MirroredParticles` (`mirrored_particles.dfy`):
  - `updateParticleCoordinates` of App.tsx/App.js, with paired pushes and
    paired splices.
  - Methods on the slot array are proved against the functions `SlotStep`
    and `Tick`.
  - Lemmas show that a tick keeps the slot invariant: paired lists, the
    drift arc, and reflected mirrors.
- `MirroredEngine` (`mirrored_engine.dfy`): the distance-factor formula, a
  `Preset` record of the constants that differ between App.tsx and App.js,
  and the `Engine` class. It holds the ring and slot arrays and `radius`/
  `currentLoudness`, with `UpdateCoordinates`, `Resize` and `Draw`.
- `AppTsx` and `AppJs` (`app_tsx.dfy`, `app_js.dfy`): each file's constants,
  and proofs that they meet what the engine assumes.
- `Visualiser` (`visualiser.dfy`): the byte-snapshot factors, both rings, the
  unmirrored particle update, and the `Animation` class.

Trigonometry is passed in as a pair of functions of degrees (`Trig`), and
`Math.random()` as a stream `rnd: nat -> real` read through a cursor. Every
draw of the stream lies in [0, 1) (`RandomStream`). Arithmetic is exact
(`real`).

## Model

| member | source | states |
|---|---|---|
| Numeric.Max | src/App.tsx:178-181 | `Math.max` is at least both arguments and equals one of them |
| Numeric.Pow | src/App.tsx:227 | `Math.pow(b, n)` for a whole exponent, as repeated multiplication; its properties are the `Pow…` lemmas below |
| Numeric.Min | src/components/Visualiser/Visualiser.js:44 | `Math.min` is at most both arguments and equals one of them |
| Numeric.EvenPowNonnegative | src/App.tsx:268-269 | an even power such as `(4L-3)^4` is never negative, whatever the sign of its base |
| Numeric.PowAtLeastOne | src/components/Visualiser/Visualiser.js:228 | a power of a base of at least 1 is at least 1 |
| Numeric.PowUnitInterval | src/App.tsx:223-224 | a power of a value in [0, 1] stays in [0, 1] |
| Numeric.UnitProduct | src/App.tsx:223 | a product of two numbers in [0, 1] lies between 0 and the second factor |
| Numeric.PowNonnegative | src/components/Visualiser/Visualiser.js:152 | a power of a non-negative base is non-negative |
| Numeric.PowMonotone | src/components/Visualiser/Visualiser.js:152-157 | on non-negative bases, a power grows with its base |
| Numeric.PowBelowOne | src/App.tsx:224 | `Math.pow(Math.random(), 2)` is below 1, so a new opacity is below 1 |
| Numeric.SumAppend | src/App.tsx:201-204 | the `reduce` sum of a concatenation is the sum of the two parts |
| Numeric.SumBounds | src/App.tsx:201-204 | elements in [lo, hi] bound the sum by n·lo and n·hi |
| Numeric.SumConstant | src/components/Visualiser/Visualiser.js:198-201 | a sum of n copies of c is n·c |
| Numeric.MeanBounds | src/components/Visualiser/Visualiser.js:198-201 | the mean of values in [lo, hi] lies in [lo, hi] |
| Numeric.Sum | src/App.tsx:202-204 | `reduce((a, b) => a + b, 0)`, a left fold from 0; `SumAppend`, `SumBounds` and `SumConstant` state its properties |
| Numeric.Mean | src/App.tsx:201-204 | the sum divided by the length; `MeanBounds` states its range |
| Geometry.Center | src/App.tsx:164-165 | the centre is half the canvas side (`c + c == size`) |
| Geometry.Reflect | src/App.tsx:194-195 | `2*centerX - x` lies as far right of the centre as `x` lies left |
| Geometry.AngleChange | src/App.tsx:257 | a drift step is -5 or +5 degrees |
| Geometry.Drift | src/App.tsx:258-267 | the step is taken iff it stays within ±60° of the slot angle; otherwise the angle is unchanged; so an angle within the arc stays within it |
| Geometry.Splice | src/App.tsx:295 | `splice(j, 1)` drops element j and shifts the rest down by one |
| Geometry.SpliceSubMultiset | src/App.tsx:295-298 | splicing never adds an element |
| Ring.RingAfter | src/App.tsx:173-198 | the ring after the loop keeps its length |
| Ring.Placed | src/App.tsx:178-191 | a point placed by the loop keeps its angle and takes the new distance factor, with `x`/`y` at that factor along its angle |
| Ring.Loudness | src/App.tsx:201-204 | the loudness is the mean distance factor over the whole ring; `LoudnessLowerBound` and `Visualiser.LoudnessBounds` bound it |
| Ring.DistanceFactors | src/App.tsx:202-203 | `map(x => x.distanceFactor)` keeps the length |
| Ring.UpdateRing | src/App.tsx:173-198 | the in-place loop leaves the array equal to `RingAfter` of its old contents |
| Ring.RingAfterMirrored | src/App.tsx:193-197 | after the loop, `x[K-i] = 2*centerX - x[i]` and `y[K-i] = y[i]` for 1 <= i < K/2 |
| Ring.RingAfterMidpoint | src/App.tsx:193-197 | index K/2 is mirrored onto itself: its `x` is the reflection of where its factor places it, and its `y` is kept |
| Ring.RingAfterAngles | src/App.tsx:173-198 | the loop never changes an angle |
| Ring.RingAfterFactors | src/App.tsx:178-181 | the factors are the new ones on [0, K/2]; the right half (K/2, K) keeps its old factors, because the loop never writes them |
| Ring.RingAfterSum | src/App.tsx:201-204 | the factor sum is the new left-half sum plus the untouched right-half sum |
| Ring.LoudnessLowerBound | src/App.tsx:178-204 | with the right half at 1 and new factors >= floor, the loudness of K = 2h points is at least ((h+1)·floor + h-1) / 2h |
| Ring.FactorsLoudnessBound | src/App.tsx:201-204 | the same bound for any ring whose factors are the new left half followed by the old right half |
| Ring.LoudnessFromSum | src/App.tsx:201-204 | a lower bound on the factor sum gives bound / n on the loudness |
| Ring.FactorSumLowerBound | src/App.tsx:178-204 | the factor sum is at least (h+1)·floor + (h-1) |
| Ring.SumOfPartsBound | src/App.tsx:201-204 | the sum of a + b, with a >= lo elementwise and b all ones, is at least \|a\|·lo + \|b\| |
| MirroredParticles.MirrorOf | src/App.tsx:239-240 | the mirror of an owning slot i < 180 is `359 - i`, a slot in 180..359 |
| MirroredParticles.Speed | src/App.tsx:268-269 | `(4L-3)^e + 0.1` is at least 0.1 for an even exponent |
| MirroredParticles.Advance | src/App.tsx:257-283 | an advanced particle: its speed is >= 0.1; its opacity drops by exactly 0.001·speed, so it strictly decreases; its size is kept; its angle either stays or moves by the drift step, and stays within the arc if it was within it |
| MirroredParticles.MirrorCopy | src/App.tsx:303-314 | a survivor's mirror gets the reflected `x`, the same `y` and the same `opacity`; its size, angle and speed are untouched |
| MirroredParticles.Sweep | src/App.tsx:252-315 | the inner `j` loop keeps the two lists equal in length, never lengthens them, and only advances the random cursor |
| MirroredParticles.SweepPaired | src/App.tsx:295-314 | the sweep keeps the lists paired: equal length and equal `y`, `size` and `opacity` at every index |
| MirroredParticles.SweepReflected | src/App.tsx:303-306 | the sweep keeps every mirror `x` the reflection of its owner's |
| MirroredParticles.SweepAdmissible | src/App.tsx:257-271 | the sweep keeps every owned particle within ±60° of its slot and its opacity below 1 |
| MirroredParticles.SweepSurvivors | src/App.tsx:286-300 | every particle left in a list after the sweep is strictly inside the viewport with positive opacity, or was skipped unchanged after a splice |
| MirroredParticles.SweepKeepsPassing | src/App.tsx:286-300 | the converse: removal happens only on a failed test; if every particle passes once advanced, neither list loses a particle |
| MirroredParticles.SweepRemovesFailing | src/App.tsx:286-299 | a particle that fails the test once advanced is removed from both lists |
| MirroredParticles.Survives | src/App.tsx:286-293 | the negation of the removal test: strictly inside the viewport with positive opacity |
| MirroredParticles.SpliceSkipsNext | src/App.tsx:295-299 | concrete case: after a splice and `continue`, the particle that slid into index j is not advanced, so an out-of-view particle survives the tick |
| MirroredParticles.SkippedMirrorKeepsOldCentre | src/App.tsx:295-299 | concrete case: after the centre moves from 50 to 60, a particle skipped after a splice keeps a mirror reflected around 50, so its lists are no longer reflected around the new centre |
| MirroredParticles.Emission | src/App.tsx:223-249 | the emission step always draws three random numbers |
| MirroredParticles.ParticleSize | src/App.tsx:223 | a new particle's size, `random()²·3·radius/300` in App.tsx and `random()²·3` in App.js |
| MirroredParticles.Emits | src/App.tsx:227 | the emission test `(4L - 3)^5 > r·60` |
| MirroredParticles.EmissionPushes | src/App.tsx:223-249 | if `(4L-3)^5 > r·60`, both lists grow by one and keep their old prefix. The new owner has the slot angle and opacity `random()^2`; its mirror has the same y, size and opacity and the reflected x. Otherwise neither list changes |
| MirroredParticles.SlotStep | src/App.tsx:216-316 | one owning slot's step changes only slots i and 359-i, keeps them equal in length, and adds at most one particle |
| MirroredParticles.Tick | src/App.tsx:216-316 | after the first n owning slots are stepped there are still 360 slots, and the slots not yet stepped (n to 179) still have pair lists of equal length; equal lengths for all 180 pairs are `TickValid`'s |
| MirroredParticles.TickNext | src/App.tsx:216 | the tick over n + 1 slots is the tick over n slots followed by slot n's step |
| MirroredParticles.SlotStepAngles | src/App.tsx:216-316 | a slot step never changes a slot's base angle |
| MirroredParticles.TickAngles | src/App.tsx:216-316 | a tick never changes a slot's base angle |
| MirroredParticles.SlotStepValid | src/App.tsx:216-316 | a slot step keeps the slot invariant: paired lists, angles within the arc, opacity below 1 |
| MirroredParticles.SweptSlotValid | src/App.tsx:227-315 | after a slot step, slots i and 359-i satisfy the slot invariant |
| MirroredParticles.TickValid | src/App.tsx:216-316 | a tick keeps the slot invariant |
| MirroredParticles.TickNextValid | src/App.tsx:216-316 | the slot invariant carries from n slots to n + 1 |
| MirroredParticles.TickReflected | src/App.tsx:239-314 | a tick keeps every mirror `x` the reflection of its owner's |
| MirroredParticles.TickNextReflected | src/App.tsx:239-314 | reflection carries from n slots to n + 1 |
| MirroredParticles.SlotStepReflected | src/App.tsx:239-314 | a slot step keeps reflection |
| MirroredParticles.SlotStepPairLengths | src/App.tsx:229-298 | a slot step keeps equal pair lengths from slot i on |
| MirroredParticles.TickFrame | src/App.tsx:216 | slots not yet reached by the loop, and their mirrors, are unchanged |
| MirroredParticles.TickGrowth | src/App.tsx:227-249 | after the tick, each owning slot has at most one more particle than before |
| MirroredParticles.TickGrowthLast | src/App.tsx:227-249 | the slot just stepped has grown by at most one |
| MirroredParticles.TickKeeps | src/App.tsx:216 | a later slot's step leaves earlier slots alone |
| MirroredParticles.SweepLists | src/App.tsx:252-315 | the `j` loop on the two lists computes `Sweep` |
| MirroredParticles.SweepSlot | src/App.tsx:252-315 | the `j` loop writes the swept lists into slots i and 359-i and nothing else |
| MirroredParticles.EmitParticle | src/App.tsx:217-249 | the emission writes `Emission`'s lists into slots i and 359-i and nothing else |
| MirroredParticles.StepSlot | src/App.tsx:217-315 | one iteration of the outer loop leaves the array equal to `SlotStep` |
| MirroredParticles.UpdateParticleCoordinates | src/App.tsx:210-317 | the whole loop leaves the array equal to `Tick` over the 180 owning slots, and keeps the slot invariant |
| MirroredEngine.CandidateOf | src/App.tsx:176-180 | `0.4·(1 + 80·(-1/level))`: a silent bin (-Infinity) gives the scale alone; the candidate is -Infinity exactly when the bin reads 0 dB |
| MirroredEngine.DistanceFactor | src/App.tsx:178-181 | the new factor is never below the previous loudness, is at least every finite candidate, and equals one of the two |
| MirroredEngine.Factors | src/App.tsx:173-181 | 25 factors, factor i read from bin i + 2 (in bounds for the preset's buffer), each at least the previous loudness |
| MirroredEngine.RadiusFor | src/App.tsx:86 | the radius is a quarter of the smaller canvas side |
| MirroredEngine.RingAngle | src/App.tsx:98 | ring point k sits at 90 + 7.5k degrees, the values the initialisation loop visits |
| MirroredEngine.SlotAngle | src/App.tsx:90 | slot i sits at 90 + i degrees |
| MirroredEngine.ZeroSnapshotKeepsLoudness | src/App.tsx:176-181 | an all-zero buffer (before the analyser exists) sets every left-half factor to the previous loudness |
| MirroredEngine.LoudnessFloor | src/App.tsx:178-204 | the new loudness is at least (25·L + 23) / 48, where L is the previous loudness |
| MirroredEngine.RingAfterShaped | src/App.tsx:173-198 | the ring update keeps the 48 angles and the right-half factors at 1 |
| MirroredEngine.TickShaped | src/App.tsx:210-317 | a tick keeps the 360 slot angles and the slot invariant |
| MirroredEngine.TickKeepsReflection | src/App.tsx:239-314 | if the mirrors were reflected around this frame's centre before the tick, they still are after it |
| MirroredEngine.UpdateRingLoudness | src/App.tsx:163-204 | the ring becomes `RingAfter` of the snapshot factors; it stays shaped and mirrored; the loudness is its mean factor and at least (25·L + 23) / 48 |
| MirroredEngine.UpdateParticles | src/App.tsx:206 | the particle half of the frame is `Tick`; it keeps the slot shape, and keeps mirrors reflected around the frame's centre if they already were |
| MirroredEngine.Update | src/App.tsx:163-207 | ring update, then loudness, then the particle tick with the new loudness, around the canvas centre; mirrors reflected around that centre stay reflected |
| MirroredEngine.EmptySlotsValid | src/App.tsx:90-95 | 360 empty lists satisfy the slot invariant |
| MirroredEngine.Engine.constructor | src/App.tsx:84-107 | 48 points at 90 + 7.5k degrees, placed at half the canvas size with factor 1, and 360 empty slots at 90 + i degrees; radius is a quarter of the smaller side; loudness is 0 |
| MirroredEngine.Engine.UpdateCoordinates | src/App.tsx:163-207 | `updateCoordinates()` on the engine's arrays: mirrored ring, loudness floor, particle tick, engine invariant kept; mirrors reflected around the canvas centre stay reflected |
| MirroredEngine.Engine.Resize | src/App.tsx:325-328 | the new canvas size and a radius of a quarter of its smaller side |
| MirroredEngine.Engine.Draw | src/App.tsx:319-338 | one frame: resize, then update; the invariant is kept, the loudness floor holds, and mirrors already reflected around the new centre stay reflected |
| AppTsx.ConstantsSound | src/App.tsx:27-29 | the 27-bin buffer is exactly one past the highest bin read (26), and the speed exponent 4 is even |
| AppTsx.SilentFrameFactors | src/App.tsx:176-181 | a silent frame sets every left-half factor to max(L, 0.4) |
| AppJs.ConstantsSound | src/components/App/App.js:10-14 | the 48-bin buffer covers the highest bin read (26), and the speed exponent 6 is even |
| AppJs.SilentFrameFactors | src/components/App/App.js:141-146 | a silent frame sets every left-half factor to max(L, 0.65) |
| Visualiser.RadiusFor | src/components/Visualiser/Visualiser.js:44 | the radius is at most 150 and at most a third of the width, and equals one of the two |
| Visualiser.AudioValue | src/components/Visualiser/Visualiser.js:150 | `byte / 255` lies in [0, 1] |
| Visualiser.PrimaryFactor | src/components/Visualiser/Visualiser.js:152-157 | `max(1, 0.8·(1 + a²))` lies in [1, 1.6] |
| Visualiser.SecondaryFactor | src/components/Visualiser/Visualiser.js:169-172 | `max(1, 0.85·(1 + a³))` lies in [1, 1.7] |
| Visualiser.AudioValueMonotone | src/components/Visualiser/Visualiser.js:150 | a larger byte gives a larger audio value |
| Visualiser.PrimaryFactorThreshold | src/components/Visualiser/Visualiser.js:152-157 | the primary factor rises above 1 iff the byte is at least 128 |
| Visualiser.SecondaryFactorThreshold | src/components/Visualiser/Visualiser.js:169-172 | the secondary factor rises above 1 iff the byte is at least 144 |
| Visualiser.SquareOf | src/components/Visualiser/Visualiser.js:152 | `Math.pow(a, 2)` is a·a |
| Visualiser.CubeOf | src/components/Visualiser/Visualiser.js:171 | `Math.pow(a, 3)` is a·a·a |
| Visualiser.FactorsMonotone | src/components/Visualiser/Visualiser.js:150-172 | both factors grow with the byte |
| Visualiser.PrimaryFactors | src/components/Visualiser/Visualiser.js:149-157 | 17 factors, factor i read from bin 2i (at most 32, in bounds), each in [1, 1.6] |
| Visualiser.SecondaryFactors | src/components/Visualiser/Visualiser.js:149-172 | 17 factors, factor i read from bin 2i, each in [1, 1.7] |
| Visualiser.RingAfterShaped | src/components/Visualiser/Visualiser.js:149-195 | the ring update keeps the 32 angles, factors within [1, hi], and the right half (16, 32) at 1 |
| Visualiser.RingAngle | src/components/Visualiser/Visualiser.js:60 | ring point k sits at 270 - 11.25k degrees, the values the initialisation loop visits |
| Visualiser.LoudnessBounds | src/components/Visualiser/Visualiser.js:198-201 | the loudness of a shaped primary ring lies in [1, 1.6] |
| Visualiser.SilenceIsUnitLoudness | src/components/Visualiser/Visualiser.js:149-201 | an all-zero byte snapshot gives loudness exactly 1 |
| Visualiser.Speed | src/components/Visualiser/Visualiser.js:228 | `L^10 + 0.5` is at least 0.5 |
| Visualiser.EmissionWindow | src/components/Visualiser/Visualiser.js:210 | for L in [1, 1.6], a draw below 0.02 always emits and a draw of at least 0.21 never does |
| Visualiser.SpeedFloor | src/components/Visualiser/Visualiser.js:228 | at loudness >= 1 the speed is at least 1.5 |
| Visualiser.Advance | src/components/Visualiser/Visualiser.js:222-232 | an advanced particle keeps its size and opacity, has speed `L^10 + 0.5`, and keeps its angle or moves it by the drift step, staying within the arc |
| Visualiser.Sweep | src/components/Visualiser/Visualiser.js:221-243 | the `forEach` never lengthens a list and only advances the random cursor |
| Visualiser.SweepAdmissible | src/components/Visualiser/Visualiser.js:221-243 | the sweep keeps every particle within ±60° of its slot, with size below 3 and opacity below 1 |
| Visualiser.SweepSurvivors | src/components/Visualiser/Visualiser.js:235-242 | every particle left after the sweep is strictly inside the viewport, or was skipped unchanged after a splice |
| Visualiser.SweepKeepsInside | src/components/Visualiser/Visualiser.js:235-242 | the converse: removal happens only when a particle leaves the viewport; if every particle stays inside once advanced, none is removed |
| Visualiser.SweepRemovesLeaving | src/components/Visualiser/Visualiser.js:235-241 | a particle that leaves the viewport once advanced is removed |
| Visualiser.Marks | src/components/Visualiser/Visualiser.js:221-243 | one (size, opacity) mark per particle |
| Visualiser.SweepKeepsMarks | src/components/Visualiser/Visualiser.js:221-243 | the sweep never changes a size or an opacity: the multiset of (size, opacity) marks only shrinks |
| Visualiser.SpliceSkipsNext | src/components/Visualiser/Visualiser.js:241 | concrete case: after a splice inside `forEach`, the particle that slid into the index is not advanced |
| Visualiser.Emits | src/components/Visualiser/Visualiser.js:210 | the emission test `L^5 > r·50` |
| Visualiser.Emission | src/components/Visualiser/Visualiser.js:210-218 | the emission adds at most one particle and uses one draw or three |
| Visualiser.EmissionPushes | src/components/Visualiser/Visualiser.js:210-218 | if `L^5 > r·50`, the list grows by one, keeping its prefix. The new particle has the slot angle, size `random()²·3` and opacity `random()²`, and three draws are used. Otherwise nothing changes and one draw is used |
| Visualiser.EmissionAdmissible | src/components/Visualiser/Visualiser.js:210-218 | a new particle is within the arc, with size below 3 and opacity below 1 |
| Visualiser.SlotStep | src/components/Visualiser/Visualiser.js:208-244 | one slot's step changes only that slot, keeps its angle, and adds at most one particle |
| Visualiser.SlotAngle | src/components/Visualiser/Visualiser.js:52-56 | slot i sits at i degrees |
| Visualiser.Tick | src/components/Visualiser/Visualiser.js:208-244 | the tick keeps 360 slots |
| Visualiser.TickNext | src/components/Visualiser/Visualiser.js:208 | the tick over n + 1 slots is the tick over n slots followed by slot n's step |
| Visualiser.TickFrame | src/components/Visualiser/Visualiser.js:208 | slots not yet reached are unchanged |
| Visualiser.TickKeeps | src/components/Visualiser/Visualiser.js:208 | a later slot's step leaves earlier slots alone |
| Visualiser.TickGrowthLast | src/components/Visualiser/Visualiser.js:210-218 | the slot just stepped has grown by at most one |
| Visualiser.TickGrowth | src/components/Visualiser/Visualiser.js:210-218 | after the tick, each slot has at most one more particle than before |
| Visualiser.SlotStepShaped | src/components/Visualiser/Visualiser.js:208-244 | a slot step keeps the angles and every particle admissible |
| Visualiser.TickNextShaped | src/components/Visualiser/Visualiser.js:208-244 | the slot shape carries from n slots to n + 1 |
| Visualiser.TickShaped | src/components/Visualiser/Visualiser.js:208-244 | a tick keeps the slot shape |
| Visualiser.SweepList | src/components/Visualiser/Visualiser.js:221-243 | the `forEach` over one list computes `Sweep` |
| Visualiser.EmitParticle | src/components/Visualiser/Visualiser.js:210-218 | the emission writes `Emission`'s list into slot i and nothing else |
| Visualiser.StepSlot | src/components/Visualiser/Visualiser.js:208-244 | one slot iteration leaves the array equal to `SlotStep` |
| Visualiser.UpdateParticleCoordinates | src/components/Visualiser/Visualiser.js:207-245 | the whole loop leaves the array equal to `Tick` over all 360 slots |
| Visualiser.UpdateRings | src/components/Visualiser/Visualiser.js:141-201 | both rings become `RingAfter` of their factors; they stay shaped and mirrored; the loudness is the primary mean, in [1, 1.6] |
| Visualiser.UpdateParticles | src/components/Visualiser/Visualiser.js:203 | the particle half of the frame is `Tick` and keeps the slot shape |
| Visualiser.EmptySlotsShaped | src/components/Visualiser/Visualiser.js:52-57 | 360 empty slots at 0..359 degrees are shaped |
| Visualiser.EmptySlots | src/components/Visualiser/Visualiser.js:52-57 | 360 empty slots at angles 0..359 |
| Visualiser.InitialRings | src/components/Visualiser/Visualiser.js:59-70 | two distinct 32-point rings at 270 - 11.25k degrees with factor 1, placed at half the canvas size; the second equals the first point by point |
| Visualiser.Animation.constructor | src/components/Visualiser/Visualiser.js:41-70 | both rings, 360 empty slots, radius `min(width/3, 150)`, loudness 0 |
| Visualiser.Animation.UpdateCoordinates | src/components/Visualiser/Visualiser.js:141-204 | both rings updated, loudness in [1, 1.6] as the primary mean, then the particle tick; the invariant is kept |
| Visualiser.Animation.Resize | src/components/Visualiser/Visualiser.js:252-254 | the new canvas size and radius `min(width/3, 150)` |
| Visualiser.Animation.Draw | src/components/Visualiser/Visualiser.js:247-256 | one frame: resize, then update; the invariant is kept and the loudness lies in [1, 1.6] |

## Left out

- The audio graph (`AudioContext`, media source, analyser, `getFloatFrequencyData`, `getByteFrequencyData`) is browser I/O. The frequency snapshot is an input of each frame.
- `requestAnimationFrame`, React hooks and JSX are scheduling and UI. `Draw` is one frame, with the new canvas size as parameters.
- Rendering (`renderParticles`, `renderRing`, `renderCircle`, `adjustLogoSize`) only draws on the canvas and is not modelled.
- `src/components/Uploader/Uploader.js` and `src/components/Uploader/Uploader.tsx` (file input and metadata) are not part of this model.
- IEEE floating point is not modelled. This covers rounding, the exact values of `cos`/`sin`, NaN, -0, and the singular `-1 / 0` case beyond its -Infinity result. Arithmetic is exact `real`, trigonometry is an injected `Trig`, and `Math.random()` is an injected stream.
- The `JSON.stringify`/`JSON.parse` round trip in ring initialisation is modelled as building the record directly.
- Differences from the design description, where the model follows the code:
  - A particle is removed when `x <= 0`, `x >= width`, `y <= 0` or `y >= height` (or, in the mirrored variants, when `opacity <= 0`). So the viewport edges count as outside, and the particle that slides into the spliced index is skipped for that tick.
  - The mirror particle's `size` is set only at emission and is not copied every tick.
  - The loudness is the mean over the whole ring, including the right half, whose factors the loop never writes and which stay 1.
- App.js creates the owner particle without `speed` and the mirror particle without `angle` and `speed`. The model gives both the App.tsx values (`speed` 0, `angle` the slot angle). Those fields of a mirror particle are never read. The Visualiser creates particles without `speed`, which the model sets to 0.
- The distance factors of a frame are computed from the snapshot before the ring loop rather than inside it. Each factor depends only on the snapshot and the previous loudness, so the values are the same.
- The Visualiser updates its two rings in one loop. The model runs the ring loop once per ring; the rings are separate arrays and each iteration touches only index i and its mirror, so the final state is the same.
- The `j` loop keeps the two lists in local sequences and stores them into the slot array once the loop ends, where the source writes each list element as it goes. No other slot is read in between, so the final array is the same.
- MirroredEngine.Engine.UpdateCoordinates: promises mirrors reflected around the frame's centre only if they already were before the frame, because the source does not keep the relation across a resize. A particle skipped after a splice keeps a mirror reflected around the previous frame's centre; `MirroredParticles.SkippedMirrorKeepsOldCentre` shows a case. The same holds for `Engine.Draw`, `Update` and `UpdateParticles`.
- MirroredEngine.Engine.Draw: states the invariant, the new size and radius, and the loudness floor, but not the ring and slot contents. Those are stated by `Engine.UpdateCoordinates`, which `Draw` calls.
- Visualiser.Animation.Draw: states the invariant, the new size and radius, and the loudness bounds, but not the ring and slot contents. Those are stated by `Animation.UpdateCoordinates`, which `Draw` calls.
