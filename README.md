# Squinewave oscillator, modelled in Dafny

Squinewave is a band-limited oscillator. Its output moves continuously between a sine, a
square and a saw, and it can be pulse-width modulated. Each cycle has four segments:

1. a cosine sweep from +1 down to -1;
2. a flat stretch at -1 until the midpoint;
3. a cosine sweep back up to +1;
4. a flat stretch at +1 until the cycle ends.

The oscillator keeps two clocks:

- `phase`, which is linear;
- `sweep_phase` (called `warped_phase` in the older plugin), which drives the cosine.

On the flat segments the cosine clock stops while the linear clock runs on. `clip` sets how squarish the wave is. `skew` sets where the midpoint lies. Two things keep every sweep at least `min_sweep` samples long:

- a lower bound on the sweep lengths;
- above `sample_rate / (2 * min_sweep)`, the wave turns into a plain sine.

Hard sync makes the oscillator speed up to the end of its cycle and restart there. It does
this by ramping the frequency toward a sync frequency.

The repository holds four revisions of the same algorithm, and each has its own Dafny module:

| module | file | revision |
|---|---|---|
| `Libm` | `libm.dfy` | exact-real versions of the library functions used (`fmod`, `fmin`, `Clamp`, ...) |
| `Shape` | `shape.dfy` | segment logic shared by every revision: sweep lengths, sweeps and their overshoot carry, segment choice, seeding a phase |
| `Squine` | `squine.dfy` | the per-sample step of the Rust crate and the Java class, as pure functions |
| `RustSquine` | `rust_squine.dfy` | `Squinewave` of `rust/src/lib.rs`: a class whose methods are proved against `Squine` |
| `JavaSquine` | `java_squine.dfy` | `SquinewaveOscillator` of `java/SquinewaveOscillator.java`, likewise |
| `ScSquine` | `sc_squine.dfy` | the newer SuperCollider unit `supercollider/plugins/Squine/Squine.cpp`: `InputParam` and `Squine` classes, the block loop over sound-out samples |
| `OldSquine` | `old_squine.dfy` | the older SuperCollider unit `plugins/Squine/Squine.cpp`, with its own constants, control-rate increments and block loop |

## How the model is built

Every method that changes state is tied to a pure function of the old state. Two styles are used:

- `ensures Snap() == Step(old(Snap()), K(), cos)` in the Rust and Java classes;
- `ensures Now() == ...` and `TickOf(old(Snap()), ...) == Ticked(Snap(), ...)` in the plugins.

A block's loop is proved against `Block` (plugins) through the loop invariant
`whole == Prefixed(soundOut[..i], Run(...))` (old plugin) or `At(...)` (newer plugin).
The Java class updates its clocks statement by statement in place. `Shape.DownSweepSample`, `Shape.CatchUp`, `Shape.UpSweepSample`, `Shape.UpSweepFromSample`, `Shape.SegmentSample` and `Shape.SeedSample` render those updates as methods, each proved equal to the function it mirrors (`SweepDown`, `UpStart`, `SweepUp`, `SweepUpFrom`, `Segments`, `SeedClocks`). They restate those functions in imperative form and add no new concept.

The lemmas about those functions then state what the code promises:

- Each sweep advances its cosine clock by the increment that spreads a sweep over its length, and never by more than the maximum sweep increment.
- An overshoot past a segment's end carries the leftover linear time into the next segment.
- The wave stays in [-1, 1].
- Above the sweep frequency limit the two clocks coincide.
- Seeding a phase lands in the requested quarter of the cycle.
- In the newer plugin, the control-rate ramps arrive at their targets by the end of a block. In the older plugin, clip does too, and so does frequency when there is no audio-rate sync input. A skew target above 1 (a negative skew input) is never reached.
- Both buffer scans find the first sample whose sync input reaches 1.
- The design gives both clocks the range [0, 2] (`rust/src/lib.rs:23`, `supercollider/plugins/Squine/Squine.cpp:95`, `plugins/Squine/Squine.cpp:34`). The code keeps the cosine clock there, and the `...KeepsCycle` lemmas prove it for every revision: one sample (`Squine.StepKeepsCycle`) and one block in each plugin (`ScSquine.BlockKeepsCycle`, `OldSquine.BlockKeepsCycle`). The frequencies involved must be at most the sample rate. The constructors' constants must meet `CycleConsts`: the shortest sweep fits a half cycle below the pure-cosine threshold, and the sync target is at most the sample rate. Every revision's constructor meets it, except Rust with a `min_sweep` argument below 4.

## Behaviour kept exactly as the code has it

Where revisions differ, each module follows its own file:

- The Rust configuration clamps `min_sweep` to [4, 100], but derives the other constants from the unclamped argument (`rust/src/lib.rs:59-65`). The Java class derives them all from the clamped value. `RustSquine.ConfigMatchesJavaOnlyInRange` proves the two agree only inside the range.
- Rust's `set_init_phase` clamps the skew between the configured `min_sweep` (a sample count, at least 4) and 2 minus it (`rust/src/lib.rs:336`). The Java class uses the per-sample shortest sweep `phase_inc * min_sweep` instead. Since the lower bound exceeds the upper one, the Rust midpoint is always `min_sweep`. `RustSquine.SeededIgnoresSkew` and `RustSquine.SeedOnSecondHalfLeavesCycle` state the consequences: the skew is ignored, and a seed in the second half starts at or after the cycle's end.
- The older plugin's constructor swaps the clamp ranges of clip and skew (`plugins/Squine/Squine.cpp:61-62`; see `OldSquine.StartClip` and `OldSquine.StartSkew`).
- The older plugin's control-rate skew is clamped to [-1, 1] on every sample (`plugins/Squine/Squine.cpp:206`), while its target lies in [0, 2]. `OldSquine.BlockSkewFallsShort` shows that a negative skew input is then never reached.
- The older plugin's sync ramp uses increment `pi / Min_Sweep` and target `2 * Max_Warp_Freq` (`plugins/Squine/Squine.cpp:171, 217`). The newer revisions use `1 / ln(min_sweep)` and `sample_rate / (3 ln(min_sweep))`.
- In both plugins, when a hard sync ends on a wraparound, the sync input is rescanned from the current sample itself (`supercollider/plugins/Squine/Squine.cpp:379`, `plugins/Squine/Squine.cpp:327`). A trigger found at that sample is already past, so no further hard sync starts in that block; `FindSync` and `FirstSync` model the scan as written.
- The linear clock `phase` can pass 2. The wraparound needs both clocks at 2 (`java/SquinewaveOscillator.java:237`, and the same test in every revision), so a skew or clip change that shortens the current sweep can leave `phase` past 2 while the cosine clock is still below 2. `JavaSquine.LinearClockPassesTwo` gives a concrete trace: at 480 Hz, one `generate()` brings `phase` to exactly 2 with no wrap, and the next takes it to 2.02 with no sync pulse. For Rust seeding, `RustSquine.SeedOnSecondHalfLeavesCycle` shows another case.
- The older plugin truncates its random `Min_Sweep` to an integer (`plugins/Squine/Squine.cpp:78`). For these positive values that is `Floor`.

## Model

| member | source | states |
|---|---|---|
| Libm.Min | rust/src/lib.rs:197 | the smaller of its arguments: at most each, and equal to one of them |
| Libm.Max | java/SquinewaveOscillator.java:167 | the larger of its arguments: at least each, and equal to one of them |
| Libm.Abs | supercollider/plugins/Squine/Squine.cpp:54 | a non-negative value equal to x or -x |
| Libm.FMod | supercollider/plugins/Squine/Squine.cpp:183-184 | for a non-negative x, a remainder in [0, m), and x minus it is a whole multiple of m (also `%` at java/SquinewaveOscillator.java:317 and rust/src/lib.rs:344, fmod at plugins/Squine/Squine.cpp:115) |
| Libm.MinRatio | supercollider/plugins/Squine/Squine.cpp:305 | fmin of a ratio and a cap: never above the cap, never above the ratio when that is defined, and a zero divisor gives the cap |
| Libm.Clamp | rust/src/lib.rs:47-55 | x when inside the range, the lower bound below it, the upper bound above it, and always inside a non-empty range (same helper at java/SquinewaveOscillator.java:269-272 and both plugins) |
| Shape.DownLength | rust/src/lib.rs:194 | the down sweep's length is at least the shortest sweep and at least clip times the first half |
| Shape.UpLength | rust/src/lib.rs:229 | the up sweep's length is at least the shortest sweep and at least clip times the second half |
| Shape.MirrorPhase | rust/src/lib.rs:165-168 | a through-zero jump maps [0, 2) into [0, 2), the mirrored phase summing to 1.5 or, after wrapping, to 3.5 |
| Shape.MirrorPhaseInvolution | rust/src/lib.rs:162-171 | jumping to the opposite side of the waveform twice returns the original phase |
| Shape.MakeEnv | rust/src/lib.rs:189-194 | the per-sample sweep parameters are consistent, and the first sweep fits before the midpoint when the shortest sweep does |
| Shape.SweepFitsHalf | rust/src/lib.rs:194-203 | when the shortest sweep fits in the first half, so does the down sweep |
| Shape.SweepDown | rust/src/lib.rs:193-221 | on the down sweep the output is the cosine of the sweep clock before it advances |
| Shape.DownWarp | rust/src/lib.rs:197 | the down sweep's advanced warp lies within one maximum sweep increment of the old warp, and advances by no more than one sample's increment in sweep lengths |
| Shape.SweepDownAdvance | rust/src/lib.rs:197 | the down sweep clock advances by at most the maximum sweep increment and by at most one sample's share of the sweep length; without overshoot the linear clock is unchanged |
| Shape.SweepDownOvershoot | rust/src/lib.rs:200-219 | an overshoot past the sweep's end moves the linear clock to the true elapsed time; the clock stays on the flat segment exactly when the leftover fits before the midpoint, and otherwise resumes on the up sweep at the matching point |
| Shape.UpStart | rust/src/lib.rs:230-233 | the up sweep starts from the current clock, or, on leaving the flat segment, from a start within one maximum increment of 1 |
| Shape.UpStartCatchesUp | rust/src/lib.rs:232 | the catch-up start covers no more than the linear time past the midpoint and no more than one sample |
| Shape.SweepUp | rust/src/lib.rs:228-250 | on the up sweep the output is the cosine of the caught-up sweep clock |
| Shape.SweepUpFrom | rust/src/lib.rs:234-249 | from a given start the output is its cosine |
| Shape.UpWarp | rust/src/lib.rs:235 | the up sweep's advanced warp lies within one maximum sweep increment of its start, and advances by no more than one sample's increment in sweep lengths |
| Shape.SweepUpAdvance | rust/src/lib.rs:235 | the up sweep clock advances by at most the maximum sweep increment and one sample's share of the sweep length; without overshoot the linear clock is unchanged |
| Shape.SweepUpOvershoot | rust/src/lib.rs:237-248 | an overshoot past the up sweep's end moves the linear clock to the true elapsed time; the clock locks at 2 exactly when the leftover fits before the cycle's end, and otherwise wraps onto the next down sweep at the matching point |
| Shape.OvershootNeedsIncrement | rust/src/lib.rs:216-218 | an overshoot that spills past the flat segment can only happen with a non-zero increment, so the division it then performs is defined |
| Shape.DownRestart | rust/src/lib.rs:275-278 | the new cycle's down sweep clock lies in [0, max sweep increment] and accounts for no more than the carried phase, and for exactly that phase when it is small enough |
| Shape.DownSweepSample | java/SquinewaveOscillator.java:165-194 | the in-place down-sweep update computes exactly `SweepDown` |
| Shape.CatchUp | java/SquinewaveOscillator.java:204-207 | the in-place catch-up computes exactly `UpStart` |
| Shape.UpSweepSample | java/SquinewaveOscillator.java:202-225 | the in-place up-sweep update computes exactly `SweepUp` |
| Shape.UpSweepFromSample | java/SquinewaveOscillator.java:208-224 | the in-place up-sweep update from a start computes exactly `SweepUpFrom` |
| Shape.SegmentOf | rust/src/lib.rs:193-255 | exactly one segment is chosen: the down sweep below 1, the low flat at 1 before the midpoint, the up sweep from there to 2, the high flat at 2 and beyond |
| Shape.Segments | rust/src/lib.rs:188-256 | the output lies in [-1, 1]; both flat segments output their level and leave the clocks where they are |
| Shape.SegmentsKeepCycle | rust/src/lib.rs:188-256 | with an increment of at most the shortest sweep and a down sweep that fits the first half, a slow-path sample never takes the cosine clock below 0. It takes it past 2 only by carrying from the up sweep into the next cycle, and then the advanced linear clock is past 2 too |
| Shape.DownKeepsCycle | rust/src/lib.rs:193-221 | under the same conditions the down sweep leaves the cosine clock in [0, 2] |
| Shape.DownOvershootKeepsCycle | rust/src/lib.rs:200-219 | a down sweep that passes 1 lands in [0, 2]: its overshoot is at most one increment, which the up sweep takes in one piece |
| Shape.DownWarpWithin | rust/src/lib.rs:211-218 | a carry from the down sweep onto the up sweep of at most one increment ends within the up sweep, in [0, 2] |
| Shape.SegmentSample | java/SquinewaveOscillator.java:159-231 | the branch chain updating the clocks in place computes exactly `Segments` |
| Shape.FirstHalf | supercollider/plugins/Squine/Squine.cpp:299 | the plugin's first-half test holds exactly on the down sweep and the low flat segment |
| Shape.HalvesSample | supercollider/plugins/Squine/Squine.cpp:294-368 | the plugin's nested first-half/second-half branching computes the same clocks as the flat chain `Segments` |
| Shape.SeedTarget | java/SquinewaveOscillator.java:311-317 | a requested phase is brought into [0, 2]: kept there, negative becomes 1.25, beyond 2 reduced by a whole number of cycles |
| Shape.SeedClocks | java/SquinewaveOscillator.java:320-343 | the seeded cosine clock: twice the target on the first quarter, 1 on the second, twice minus 1 on the third, 2 on the last |
| Shape.SeedSample | java/SquinewaveOscillator.java:311-343 | the branch chain assigning the seeded clocks computes exactly `SeedClocks` |
| Shape.SeedOnDownSweep | java/SquinewaveOscillator.java:322-325 | a first-quarter seed is on the down sweep with the linear clock at the matching point of it |
| Shape.SeedOnFlatLow | java/SquinewaveOscillator.java:326-330 | a second-quarter seed is on the low flat with the linear clock between the down sweep's end and the midpoint |
| Shape.SeedOnUpSweep | java/SquinewaveOscillator.java:334-337 | a third-quarter seed is on the up sweep with the linear clock at the matching point of it |
| Shape.SeedOnFlatHigh | java/SquinewaveOscillator.java:338-342 | a last-quarter seed is on the high flat with the linear clock between the up sweep's end and 2 |
| Shape.SeedSelectsSegment | java/SquinewaveOscillator.java:319-343 | the segment the sample step chooses on seeded clocks is the requested quarter, except that a low-flat request with no flat part lands on the up sweep |
| Squine.FreqOf | rust/src/lib.rs:119-122 | the stored frequency is the magnitude of the input, capped at the maximum frequency |
| Squine.ClipOf | rust/src/lib.rs:124-126 | the stored clip proportion lies in [0, 1] and is 1 minus an in-range input, 1 below the range, 0 above it (also the plugins' GET_CLIP, supercollider/plugins/Squine/Squine.cpp:120) |
| Squine.SkewOf | rust/src/lib.rs:128-130 | the stored midpoint lies in [0, 2] and is 1 minus an in-range input, 2 below the range, 0 above it (also the plugins' GET_SKEW, supercollider/plugins/Squine/Squine.cpp:122) |
| Squine.HardsyncStart | rust/src/lib.rs:296-315 | a hard sync starts only when none is running; at the cycle's end it only snaps the phase; above the sync frequency it does nothing; otherwise it starts a ramp; the other fields are left as they are |
| Squine.HardsyncStartIdempotent | rust/src/lib.rs:298-300 | triggering a hard sync twice in a row is the same as triggering it once |
| Squine.SyncRamp | rust/src/lib.rs:151-159 | with no hard sync nothing changes; during one the frequency moves between its value and the sync frequency, and the ramp phase is capped at pi with the increment then stopped |
| Squine.Ramp | rust/src/lib.rs:153 | a weighted move toward a target stays between the start and the target |
| Squine.ThroughZero | rust/src/lib.rs:161-177 | the negative-frequency flag follows the raw frequency's sign; a sign change outside a hard sync mirrors both clocks; a negative frequency mirrors the skew |
| Squine.Prepared | rust/src/lib.rs:145-177 | after the pre-shape steps the state is normalised, the sync trigger is consumed, the ramp phase is at most pi, and clip, raw frequency and outputs are untouched |
| Squine.Midpoint | rust/src/lib.rs:190 | the midpoint is the skew when that is at least a shortest sweep from 0 and 2, otherwise the nearer bound; it lies in [shortest sweep, 2 - shortest sweep] |
| Squine.SweepEnv | rust/src/lib.rs:189-190 | each sample's sweep parameters: the shortest sweep is phase inc times min_sweep, no shorter than one sample, and when below half a cycle the midpoint and the down sweep fit |
| Squine.Shaped | rust/src/lib.rs:182-256 | only output and clocks change; the output is in [-1, 1]; above the sweep frequency limit it is the cosine of the sweep clock and both clocks advance together |
| Squine.Wrap | rust/src/lib.rs:261-289 | the sync output is 1 exactly when both clocks reach 2; otherwise nothing else changes; a wrap that ends a hard sync zeroes both clocks and the ramp, and keeps the boosted frequency; an ordinary wrap keeps the carried phase, or resets it to half an increment when it exceeds one increment |
| Squine.Step | rust/src/lib.rs:144-291 | one sample keeps the state normalised, consumes the trigger, keeps the ramp phase at most pi and leaves clip and raw frequency alone |
| Squine.PhaseInc | rust/src/lib.rs:179 | the per-sample phase increment is non-negative and zero exactly at zero frequency |
| Squine.Advance | rust/src/lib.rs:179-289 | shaping plus wrapping keeps the state normalised and either keeps the ramp phase or ends the hard sync |
| Squine.FastPathLocksClocks | rust/src/lib.rs:182-258 | above the sweep frequency limit the two clocks coincide after the sample and the output is the cosine of the sweep clock |
| Squine.ConstsFrom | java/SquinewaveOscillator.java:48-53 | the constants of a shortest sweep ms in [4, 100], as `DerivedFor` states: 2 / sr per Hz, threshold sr / (2 ms), warp cap 1 / ms, sync target sr / (3 ln ms), sync increment 1 / ln ms |
| Squine.DerivedCycleConsts | rust/src/lib.rs:58-69 | constants with 2 / sr per Hz, a threshold sr / (2 arg) for an argument at least the shortest sweep, and a sync target sr / (3 l) for l ≥ 1 meet `CycleConsts` |
| Squine.BelowThreshold | rust/src/lib.rs:182-190 | below max_sweep_freq the shortest sweep `phase_inc * min_sweep` is under 1, a half cycle |
| Squine.SweepKeepsCycle | rust/src/lib.rs:188-256 | below max_sweep_freq, with clip in [0, 1], one slow-path sample never takes `sweep_phase` below 0, and past 2 only when the advanced linear clock passes 2 too |
| Squine.ShapedKeepsCycle | rust/src/lib.rs:182-256 | at a frequency of at most the sample rate, shaping leaves `sweep_phase` at least 0, and past 2 only when the advanced linear clock passes 2 |
| Squine.RateBetween | rust/src/lib.rs:151-159 | a frequency between two non-negative frequencies of at most the sample rate is non-negative and at most the sample rate |
| Squine.RateBelow | rust/src/lib.rs:179 | a lower non-negative frequency has a phase increment no larger |
| Squine.SyncWithinRate | rust/src/lib.rs:64 | the hard-sync target max_sync_freq is at most the sample rate |
| Squine.PreparedWithinRate | rust/src/lib.rs:145-177 | the pre-shape steps keep `InCycle`: the sync ramp moves the frequency only toward max_sync_freq |
| Squine.AdvanceKeepsCycle | rust/src/lib.rs:179-289 | shaping plus wrapping leaves `sweep_phase` in [0, 2] when the increment is at most one cycle |
| Squine.StepKeepsCycle | rust/src/lib.rs:144-291 | generate keeps `InCycle`: `sweep_phase` in [0, 2] (the range rust/src/lib.rs:23 states) and the frequency at most the sample rate |
| Squine.Initial | rust/src/lib.rs:80-98 | the default state is 220 Hz, clip proportion 1 (all sweep, no flat parts), skew 0 and normalised |
| JavaSquine.DeriveConsts | java/SquinewaveOscillator.java:48-53 | min_sweep is clamped to [4, 100] and every derived constant is computed from the clamped value, the sync ramp's increment being 1 / ln(min_sweep) |
| JavaSquine.DeriveConstsKeepCycle | java/SquinewaveOscillator.java:48-53 | the Java constants meet `CycleConsts` for every min_sweep argument |
| JavaSquine.Seeded | java/SquinewaveOscillator.java:303-344 | seeding sets only the two clocks, the cosine clock on the requested quarter's canonical value |
| JavaSquine.SeedAt | java/SquinewaveOscillator.java:311-343 | the seeded cosine clock is the requested quarter's canonical value, and depends only on frequency, clip and skew |
| JavaSquine.SeededIdempotent | java/SquinewaveOscillator.java:303-344 | seeding the same phase twice is the same as seeding it once |
| JavaSquine.LinearClockPassesTwo | java/SquinewaveOscillator.java:149-265 | a concrete trace (48 kHz, min_sweep 4, 480 Hz, seed 1.4 under skew -0.9, then skew 0.8) on which one generate() leaves the linear clock at exactly 2 with no wrap and the next takes it past 2, the cosine clock below 2 and no sync pulse |
| JavaSquine.SeedOnRise | java/SquinewaveOscillator.java:303-344 | that trace's seed: cosine clock 1.8 and linear clock 1.98 on the up sweep, skew then 0.2 |
| JavaSquine.RiseStep | java/SquinewaveOscillator.java:115-266 | one generate() on that up sweep moves the linear clock by 0.02 and the cosine clock by 0.02 / 1.8, without a wrap |
| JavaSquine.SquinewaveOscillator.constructor | java/SquinewaveOscillator.java:45-65 | the constants come from the clamped min_sweep and the state is the default seeded at the given phase |
| JavaSquine.SquinewaveOscillator.GetMinSweep | java/SquinewaveOscillator.java:73 | the reported min_sweep lies in [4, 100] |
| JavaSquine.SquinewaveOscillator.SetFreq | java/SquinewaveOscillator.java:87-90 | stores the capped magnitude and the raw frequency, nothing else |
| JavaSquine.SquinewaveOscillator.SetSkew | java/SquinewaveOscillator.java:91-94 | stores the skew's midpoint, nothing else |
| JavaSquine.SquinewaveOscillator.SetClip | java/SquinewaveOscillator.java:95-98 | stores the clip proportion, nothing else |
| JavaSquine.SquinewaveOscillator.SetSync | java/SquinewaveOscillator.java:99 | the sync trigger is set exactly when the input reaches the trigger level |
| JavaSquine.SquinewaveOscillator.GetSample | java/SquinewaveOscillator.java:106 | the last output, in [-1, 1] |
| JavaSquine.SquinewaveOscillator.GetSync | java/SquinewaveOscillator.java:107 | the last sync output, 0 or 1 |
| JavaSquine.SquinewaveOscillator.GetPhase | java/SquinewaveOscillator.java:110 | the linear clock |
| JavaSquine.SquinewaveOscillator.HardsyncInit | java/SquinewaveOscillator.java:275-293 | the new state is `HardsyncStart` of the old |
| JavaSquine.SquinewaveOscillator.Generate | java/SquinewaveOscillator.java:115-266 | the new state is `Step` of the old |
| JavaSquine.SquinewaveOscillator.PrepareSample | java/SquinewaveOscillator.java:117-147 | the new state is `Prepared` of the old |
| JavaSquine.SquinewaveOscillator.RampSample | java/SquinewaveOscillator.java:123-131 | the new state is `SyncRamp` of the old |
| JavaSquine.SquinewaveOscillator.ThroughZeroSample | java/SquinewaveOscillator.java:133-147 | the new state is `ThroughZero` of the old |
| JavaSquine.SquinewaveOscillator.AdvanceSample | java/SquinewaveOscillator.java:149-265 | the new state is `Advance` of the old |
| JavaSquine.SquinewaveOscillator.ShapeSample | java/SquinewaveOscillator.java:152-231 | the new state is `Shaped` of the old |
| JavaSquine.SquinewaveOscillator.WrapCycle | java/SquinewaveOscillator.java:237-265 | the new state is `Wrap` of the old |
| JavaSquine.SquinewaveOscillator.SetInitPhase | java/SquinewaveOscillator.java:303-344 | the new state is `Seeded` of the old |
| JavaSquine.NewDefault | java/SquinewaveOscillator.java:67-71 | the default oscillator runs at 48 kHz with a random min_sweep in [4, 14) and starts on the upward zero crossing |
| RustSquine.Config | rust/src/lib.rs:58-69 | min_sweep is clamped to [4, 100] while the sweep increment, sweep frequency limit and sync constants come from the unclamped argument |
| RustSquine.ConfigMatchesJavaOnlyInRange | rust/src/lib.rs:60-65 | the Rust and Java constants agree exactly when the argument is inside [4, 100] |
| RustSquine.ConfigKeepsCycle | rust/src/lib.rs:58-69 | for an argument of at least 4 the Rust constants meet `CycleConsts` |
| RustSquine.SeedEnv | rust/src/lib.rs:334-336 | seeding uses min_sweep itself as the midpoint |
| RustSquine.Seeded | rust/src/lib.rs:332-375 | seeding sets only the two clocks, the cosine clock on the requested quarter's canonical value |
| RustSquine.SeededIgnoresSkew | rust/src/lib.rs:336 | the seeded clocks do not depend on the skew |
| RustSquine.SeedOnSecondHalfLeavesCycle | rust/src/lib.rs:363-374 | a seed in the second half puts the linear clock at 2 or beyond, and on the up sweep at min_sweep or beyond |
| RustSquine.SeedPastMidpoint | rust/src/lib.rs:363-374 | with a midpoint at 2 or beyond, second-half seeds land at 2 or beyond |
| RustSquine.Squinewave.constructor | rust/src/lib.rs:79-101 | the constants are `Config` of the arguments and the state is the default seeded at the given phase |
| RustSquine.Squinewave.Update | rust/src/lib.rs:111-116 | sets frequency, clip, skew and sync trigger as the four setters would, nothing else |
| RustSquine.Squinewave.SetFreq | rust/src/lib.rs:119-122 | stores the capped magnitude and the raw frequency, nothing else |
| RustSquine.Squinewave.SetClip | rust/src/lib.rs:124-126 | stores the clip proportion, nothing else |
| RustSquine.Squinewave.SetSkew | rust/src/lib.rs:128-130 | stores the skew's midpoint, nothing else |
| RustSquine.Squinewave.SetSync | rust/src/lib.rs:133-135 | the sync trigger is set exactly when the input reaches the trigger level |
| RustSquine.Squinewave.Audio | rust/src/lib.rs:138 | the last output, in [-1, 1] |
| RustSquine.Squinewave.Sync | rust/src/lib.rs:140 | the last sync output, 0 or 1 |
| RustSquine.Squinewave.Generate | rust/src/lib.rs:144-291 | the new state is `Step` of the old |
| RustSquine.Squinewave.PrepareSample | rust/src/lib.rs:145-177 | the new state is `Prepared` of the old |
| RustSquine.Squinewave.HardsyncInit | rust/src/lib.rs:296-315 | the new state is `HardsyncStart` of the old |
| RustSquine.Squinewave.RampSample | rust/src/lib.rs:151-159 | the new state is `SyncRamp` of the old |
| RustSquine.Squinewave.ThroughZeroSample | rust/src/lib.rs:161-177 | the new state is `ThroughZero` of the old |
| RustSquine.Squinewave.AdvanceSample | rust/src/lib.rs:179-289 | the new state is `Advance` of the old |
| RustSquine.Squinewave.ShapeSample | rust/src/lib.rs:182-256 | the new state is `Shaped` of the old |
| RustSquine.Squinewave.WrapCycle | rust/src/lib.rs:261-289 | the new state is `Wrap` of the old |
| RustSquine.Squinewave.SetInitPhase | rust/src/lib.rs:332-375 | the new state is `Seeded` of the old |
| ScSquine.Initialised | supercollider/plugins/Squine/Squine.cpp:31-40 | an input becomes audio rate exactly when the host says so, and its ramp target and step are kept |
| ScSquine.Checked | supercollider/plugins/Squine/Squine.cpp:53-58 | a ramp within one step of its target snaps onto it and stops; otherwise nothing changes; afterwards a running ramp is more than one step away |
| ScSquine.Targeted | supercollider/plugins/Squine/Squine.cpp:60-64 | a new target with a rate in (0, 1] leaves the ramp heading toward it; a rate of 1 jumps straight onto it |
| ScSquine.Aimed | supercollider/plugins/Squine/Squine.cpp:61-62 | the step is the rate's share of the distance to the new target |
| ScSquine.TargetedHeads | supercollider/plugins/Squine/Squine.cpp:60-64 | aiming at a target and then checking leaves a ramp that heads there, or lands on it immediately at rate 1 |
| ScSquine.Reinitialised | supercollider/plugins/Squine/Squine.cpp:43-51 | once per block an audio-rate input takes the new buffer, and a control-rate one aims at the buffer's value over the block |
| ScSquine.ParamNext | supercollider/plugins/Squine/Squine.cpp:66-74 | an audio-rate input reads its sample; a control-rate input that heads toward its target stays between the old value and the target; a stopped one stays put |
| ScSquine.NextHeads | supercollider/plugins/Squine/Squine.cpp:71-72 | one step of a ramp heading toward its target leaves it still heading there |
| ScSquine.Samples | supercollider/plugins/Squine/Squine.cpp:66-74 | reading a control-rate input k times keeps its host and target |
| ScSquine.ControlRateArrives | supercollider/plugins/Squine/Squine.cpp:43-74 | a control-rate input re-aimed at the start of a block reaches its target on the block's last sample |
| ScSquine.TargetedRamp | supercollider/plugins/Squine/Squine.cpp:43-64 | aiming over j samples either lands at once or leaves exactly j steps to go |
| ScSquine.CheckedRamp | supercollider/plugins/Squine/Squine.cpp:53-58 | checking a ramp with j steps to go lands on the target only when j is 1 and otherwise leaves it unchanged |
| ScSquine.RampArrives | supercollider/plugins/Squine/Squine.cpp:66-74 | a ramp j steps from its target reaches it exactly after j - 1 reads and stops there |
| ScSquine.RampLands | supercollider/plugins/Squine/Squine.cpp:66-74 | a ramp two steps from its target lands on it at the next read and stops |
| ScSquine.RampStepsOn | supercollider/plugins/Squine/Squine.cpp:66-74 | a ramp j ≥ 3 steps away moves one step and is then j - 1 steps away |
| ScSquine.StoppedStays | supercollider/plugins/Squine/Squine.cpp:66-74 | a stopped ramp never moves again |
| ScSquine.FirstSync | supercollider/plugins/Squine/Squine.cpp:215-222 | -1 exactly when no sample in the range reaches 1, else the first such sample |
| ScSquine.FindSync | supercollider/plugins/Squine/Squine.cpp:215-222 | the loop returns `FirstSync`: the first sample reaching 1, or -1 |
| ScSquine.GetFreq | supercollider/plugins/Squine/Squine.cpp:118 | a negative frequency input counts as 0, others pass through |
| ScSquine.MinSweepOf | supercollider/plugins/Squine/Squine.cpp:138-146 | min_sweep is the argument inside [4, 100], 100 above, and a random value in [5, 15] below 4 |
| ScSquine.ScConsts | supercollider/plugins/Squine/Squine.cpp:138-152 | the unit's constants are derived from its min_sweep as `DerivedFor` states: 2 / sr per Hz, threshold sr / (2 min_sweep), warp cap 1 / min_sweep, sync target sr / (3 ln min_sweep), sync increment 1 / ln min_sweep |
| ScSquine.ScConstsKeepCycle | supercollider/plugins/Squine/Squine.cpp:138-152 | the constructor's constants meet `CycleConsts` for every argument and random draw |
| ScSquine.StartPhaseOf | supercollider/plugins/Squine/Squine.cpp:155-157 | a start phase outside [0, 2] becomes 1.25 |
| ScSquine.Seeded | supercollider/plugins/Squine/Squine.cpp:172-211 | seeding sets only the two clocks, the cosine clock on the requested quarter's canonical value |
| ScSquine.HardsyncStart | supercollider/plugins/Squine/Squine.cpp:226-244 | a hard sync starts only when none is running; at the cycle's end it only snaps the phase; above the sync frequency it does nothing; otherwise it starts a ramp |
| ScSquine.Prepared | supercollider/plugins/Squine/Squine.cpp:269-283 | the sample's frequency moves toward the sync frequency only during a hard sync; the ramp phase stays at most pi |
| ScSquine.Shaped | supercollider/plugins/Squine/Squine.cpp:285-368 | the output is in [-1, 1]; above the sweep frequency limit it is the cosine of the sweep clock and both clocks advance together |
| ScSquine.Wrap | supercollider/plugins/Squine/Squine.cpp:372-395 | a wrap ending a hard sync resets the clocks and asks for a rescan; an ordinary wrap carries the phase, reset to half an increment when it exceeds one increment, and below the sweep frequency limit restarts the down sweep at `DownRestart` of the carried phase |
| ScSquine.Sample | supercollider/plugins/Squine/Squine.cpp:269-399 | a sample outputs a value in [-1, 1], keeps the ramp phase at most pi, and without a trigger or a running sync neither starts one nor rescans |
| ScSquine.FastPathLocksClocks | supercollider/plugins/Squine/Squine.cpp:288-293 | above the sweep frequency limit the two clocks coincide after the sample and the output is the cosine of the sweep clock |
| ScSquine.SampleKeepsCycle | supercollider/plugins/Squine/Squine.cpp:269-399 | one sample at a frequency of at most the sample rate leaves `sweep_phase` in [0, 2], the range supercollider/plugins/Squine/Squine.cpp:95 states |
| ScSquine.TickOf | supercollider/plugins/Squine/Squine.cpp:263-399 | one sample of the block reads each input once, outputs a value in [-1, 1], and the next sync index is unchanged, -1, or a later sample |
| ScSquine.Played | supercollider/plugins/Squine/Squine.cpp:263-400 | after i samples there are i outputs, all in [-1, 1], the unit is still runnable, and `InCycle` holds after the passes when it held before them |
| ScSquine.Pass | supercollider/plugins/Squine/Squine.cpp:263-399 | one more pass appends one output in [-1, 1] to the written prefix, keeps the unit runnable and the input rates, and keeps `InCycle` |
| ScSquine.Block | supercollider/plugins/Squine/Squine.cpp:248-401 | a block writes n outputs in [-1, 1] and keeps every input's rate |
| ScSquine.InRateBetween | supercollider/plugins/Squine/Squine.cpp:71-72 | a value between two frequency inputs of at most the sample rate is one too |
| ScSquine.NextInRate | supercollider/plugins/Squine/Squine.cpp:66-74 | get_next keeps the frequency input within the sample rate, and its value is within it |
| ScSquine.ReinitInRate | supercollider/plugins/Squine/Squine.cpp:43-51 | reinit keeps the frequency input within the sample rate when the host's samples are |
| ScSquine.TickKeepsCycle | supercollider/plugins/Squine/Squine.cpp:263-399 | one pass of the loop keeps `InCycle`: `sweep_phase` in [0, 2] and the frequency input within the sample rate |
| ScSquine.BlockKeepsCycle | supercollider/plugins/Squine/Squine.cpp:248-401 | from `sweep_phase` in [0, 2] with the frequency ramp and host frequencies within the sample rate, a block ends in `InCycle` |
| ScSquine.ControlRateIgnoresIndex | supercollider/plugins/Squine/Squine.cpp:66-74 | a control-rate input ignores the sample index |
| ScSquine.ControlRateSamples | supercollider/plugins/Squine/Squine.cpp:66-74 | reading a control-rate input at index i after i reads is its (i + 1)-th read |
| ScSquine.BlockSettles | supercollider/plugins/Squine/Squine.cpp:43-74 | after a whole block a control-rate input sits on the host's value with its ramp stopped |
| ScSquine.SamplesSplit | supercollider/plugins/Squine/Squine.cpp:66-74 | reading a + b times is reading a times and then b times |
| ScSquine.NoSyncInputNoHardsync | supercollider/plugins/Squine/Squine.cpp:255 | without an audio-rate sync input no hard sync ever starts |
| ScSquine.InputParam.constructor | supercollider/plugins/Squine/Squine.cpp:22-25 | a new input is in its fresh state |
| ScSquine.InputParam.Init | supercollider/plugins/Squine/Squine.cpp:31-40 | the new state is `Initialised` of the old |
| ScSquine.InputParam.Reinit | supercollider/plugins/Squine/Squine.cpp:43-51 | the new state is `Reinitialised` of the old |
| ScSquine.InputParam.CheckFinished | supercollider/plugins/Squine/Squine.cpp:53-58 | the new state is `Checked` of the old |
| ScSquine.InputParam.SetTarget | supercollider/plugins/Squine/Squine.cpp:60-64 | the new state is `Targeted` of the old |
| ScSquine.InputParam.GetNext | supercollider/plugins/Squine/Squine.cpp:66-74 | the new state is `ParamNext` of the old and the result is its value |
| ScSquine.Squine.constructor | supercollider/plugins/Squine/Squine.cpp:126-167 | the constants are `ScConsts`, the unit is started, and one sample is computed as `Block` of one |
| ScSquine.Squine.Start | supercollider/plugins/Squine/Squine.cpp:129-162 | the new state is `Started` from the host's first samples |
| ScSquine.Squine.InitPhase | supercollider/plugins/Squine/Squine.cpp:172-211 | the new clocks are `Seeded` of the old |
| ScSquine.Squine.HardsyncInit | supercollider/plugins/Squine/Squine.cpp:226-244 | the new clocks are `HardsyncStart` of the old |
| ScSquine.Squine.PrepareSample | supercollider/plugins/Squine/Squine.cpp:269-283 | the new clocks and the sample's frequency are `Prepared` of the old |
| ScSquine.Squine.ShapeSample | supercollider/plugins/Squine/Squine.cpp:285-368 | the output and new clocks are `Shaped` of the old, the sync ramp untouched |
| ScSquine.Squine.WrapCycle | supercollider/plugins/Squine/Squine.cpp:372-399 | the new clocks are `Wrap` of the old and a rescan returns the first trigger from this sample on |
| ScSquine.Squine.SampleBody | supercollider/plugins/Squine/Squine.cpp:269-399 | output, clocks and next sync index are `Sample` of the old, rescanning with `FirstSync` |
| ScSquine.Squine.Tick | supercollider/plugins/Squine/Squine.cpp:263-399 | output, state and next sync index are `TickOf` of the old |
| ScSquine.Squine.Next | supercollider/plugins/Squine/Squine.cpp:248-401 | the block's outputs and new state are `Block` of the old; control-rate inputs end on the host's values; the output array past n is untouched |
| ScSquine.Squine.SampleLoop | supercollider/plugins/Squine/Squine.cpp:263-400 | the loop writes `Played` of the old state into the first n outputs and nothing past them |
| ScSquine.Squine.Step | supercollider/plugins/Squine/Squine.cpp:263-400 | one loop iteration extends the written prefix by the next `TickOf` output |
| ScSquine.Started | supercollider/plugins/Squine/Squine.cpp:126-162 | the started unit keeps the host's rates, has no hard sync, and keeps the residual clocks for a zero start phase or seeds them otherwise |
| OldSquine.MinSweepOf | plugins/Squine/Squine.cpp:75-81 | min_sweep is the argument inside [4, sample_rate / 100], otherwise a random whole number in [5, 14] |
| OldSquine.ConstsOf | plugins/Squine/Squine.cpp:75-85 | the unit's constants are derived from its min_sweep, with maximum warp 1 / min_sweep |
| OldSquine.PhaseInc | plugins/Squine/Squine.cpp:225 | the per-sample phase increment is non-negative, and positive for a positive frequency |
| OldSquine.StartClip | plugins/Squine/Squine.cpp:61 | the starting clip is 1 minus an in-range input, but a negative input gives a proportion above 1 |
| OldSquine.StartSkew | plugins/Squine/Squine.cpp:62 | the starting skew is 1 minus an in-range input, but a negative input acts as 0 |
| OldSquine.StartPhaseOf | plugins/Squine/Squine.cpp:89-91 | a negative start phase becomes 1.25; the seeded result is the same as for the raw value |
| OldSquine.OldEnv | plugins/Squine/Squine.cpp:104-106 | the sample's sweep parameters with the midpoint the skew clamped by the shortest sweep |
| OldSquine.Seeded | plugins/Squine/Squine.cpp:103-142 | seeding sets only the two clocks, the cosine clock on the requested quarter's canonical value |
| OldSquine.Started | plugins/Squine/Squine.cpp:56-94 | the started unit reads the host's first frequency and the swapped-clamp clip and skew, has no hard sync, and keeps or seeds its clocks |
| OldSquine.SeededByTarget | plugins/Squine/Squine.cpp:108-115 | two phases reducing to the same target seed the same state |
| OldSquine.BlockIncs | plugins/Squine/Squine.cpp:191-193 | the control-rate increments bring each input from its value to the host's one in n steps; other rates get no increment |
| OldSquine.Stepped | plugins/Squine/Squine.cpp:197-206 | each sample's input update: control-rate frequency steps, audio-rate frequency reads the buffer with negatives as 0, clip clamped to [0, 1], skew clamped to [-1, 1] |
| OldSquine.HardsyncStart | plugins/Squine/Squine.cpp:157-173 | a hard sync starts only when none is running; at the cycle's end it only snaps the phase; above the warp frequency limit it does nothing; otherwise it starts a ramp |
| OldSquine.Prepared | plugins/Squine/Squine.cpp:208-223 | during a hard sync the frequency moves toward twice the warp frequency limit and the ramp phase stays at most pi |
| OldSquine.Reread | plugins/Squine/Squine.cpp:238-241 | audio-rate clip and skew are read from this sample's buffers, others kept |
| OldSquine.Shaped | plugins/Squine/Squine.cpp:227-314 | the output is in [-1, 1] and the frequency and ramp are untouched; above the warp frequency limit both clocks advance together |
| OldSquine.Wrap | plugins/Squine/Squine.cpp:318-353 | a wrap ending a hard sync resets it, restores `non_sync_freq` (the input at audio rate, the last stepped value, boost included, at control rate), and asks for a rescan; an ordinary wrap carries the phase, reset to half an increment when it exceeds one increment, and below the warp frequency limit rereads clip and skew and restarts the down sweep at `DownRestart` of the carried phase |
| OldSquine.Sample | plugins/Squine/Squine.cpp:195-353 | a sample is undefined exactly when its stepped frequency is negative; otherwise the output is in [-1, 1] and a rescan needs a trigger or a running sync |
| OldSquine.FastPathLocksClocks | plugins/Squine/Squine.cpp:228-233 | above the warp frequency limit the two clocks coincide after the sample |
| OldSquine.TickOf | plugins/Squine/Squine.cpp:195-354 | one loop iteration: undefined exactly at a negative stepped frequency, else the output is in [-1, 1] and the next sync index is unchanged, -1 or later |
| OldSquine.Run | plugins/Squine/Squine.cpp:195-354 | the rest of the loop yields n - i outputs in [-1, 1], with control-rate clip and skew at their clamped step counts and frequency at its step count |
| OldSquine.TickSteps | plugins/Squine/Squine.cpp:197-206 | one sample takes one of the control-rate steps |
| OldSquine.Block | plugins/Squine/Squine.cpp:177-355 | when defined, a block yields n outputs in [-1, 1] and keeps the unit ready |
| OldSquine.TickKeepsSafe | plugins/Squine/Squine.cpp:197-225 | a sample whose frequency cannot turn negative is defined and keeps that so for the next one |
| OldSquine.RunDefined | plugins/Squine/Squine.cpp:195-354 | with a frequency that cannot turn negative the rest of the loop is defined |
| OldSquine.BlockDefined | plugins/Squine/Squine.cpp:191-202 | the block is defined in three cases: the frequency is read at audio rate; it is non-negative and does not fall over the block; or there is no audio-rate sync input and the control-rate ramp starts and ends non-negative, falling or not |
| OldSquine.FirstStepBetween | plugins/Squine/Squine.cpp:196-198 | the first of j ≥ 1 control-rate frequency steps lies between the start of the ramp and its end |
| OldSquine.TickKeepsRampSafe | plugins/Squine/Squine.cpp:195-225 | without an audio-rate sync input, a pass on a ramp that is non-negative now and at its end is defined, and leaves the ramp so for the next pass |
| OldSquine.RunDefinedOnRamp | plugins/Squine/Squine.cpp:195-354 | on such a ramp the rest of the sample loop is defined |
| OldSquine.ClampedSteps | plugins/Squine/Squine.cpp:203-206 | any number of clamped steps stays inside the clamp range |
| OldSquine.StepsCover | plugins/Squine/Squine.cpp:197-198 | j steps of d from x reach x + j d |
| OldSquine.StepsMove | plugins/Squine/Squine.cpp:197-198 | steps move in the increment's direction |
| OldSquine.ClampedStepsCover | plugins/Squine/Squine.cpp:203-206 | clamping never bites while the unclamped steps stay within range |
| OldSquine.ClampedArrives | plugins/Squine/Squine.cpp:191-206 | n clamped steps toward an in-range target reach it exactly |
| OldSquine.RunNext | plugins/Squine/Squine.cpp:195-354 | the rest of the loop is one sample followed by the rest after it |
| OldSquine.IncsArrive | plugins/Squine/Squine.cpp:191-206 | over a block the control-rate inputs reach the host's values: clip always, skew when its target is at most 1, frequency always |
| OldSquine.ClipIncArrives | plugins/Squine/Squine.cpp:192-204 | a control-rate clip starting in [0, 1] reaches the host's clip after the block's n clamped steps |
| OldSquine.SkewIncArrives | plugins/Squine/Squine.cpp:193-206 | a control-rate skew starting in [-1, 1] reaches a host skew of at most 1 after the block's n clamped steps |
| OldSquine.BlockClipArrives | plugins/Squine/Squine.cpp:192-204 | a control-rate clip ends the block on the host's value |
| OldSquine.BlockSkewArrives | plugins/Squine/Squine.cpp:193-206 | a control-rate skew whose target is at most 1 ends the block on it |
| OldSquine.BlockSkewFallsShort | plugins/Squine/Squine.cpp:193-206 | a control-rate skew stays in [-1, 1], so a negative skew input (target above 1) is never reached |
| OldSquine.BlockFreqArrives | plugins/Squine/Squine.cpp:191-200 | without sync a control-rate frequency ends the block on the host's value |
| OldSquine.ConstsOfKeepCycle | plugins/Squine/Squine.cpp:75-85 | the constructor's constants meet `CycleConsts`: below Max_Warp_Freq the shortest sweep is under a half cycle, for every argument and random draw |
| OldSquine.BelowThreshold | plugins/Squine/Squine.cpp:227-235 | below Max_Warp_Freq the shortest sweep `phase_inc * Min_Sweep` is under 1, a half cycle |
| OldSquine.BoostWithinRate | plugins/Squine/Squine.cpp:217 | the hard-sync target `2 * Max_Warp_Freq` is at most the sample rate |
| OldSquine.RateBetween | plugins/Squine/Squine.cpp:208-223 | a frequency between two frequencies of at most the sample rate is at most the sample rate |
| OldSquine.RateBelow | plugins/Squine/Squine.cpp:225 | a lower frequency has a phase increment no larger |
| OldSquine.SweepKeepsCycle | plugins/Squine/Squine.cpp:234-314 | below Max_Warp_Freq, with clip in [0, 1], one slow-path sample never takes `warped_phase` below 0, and past 2 only when the advanced linear clock passes 2 too |
| OldSquine.ShortSweepKeepsCycle | plugins/Squine/Squine.cpp:234-314 | the same whenever the shortest sweep is under a half cycle |
| OldSquine.EnvFitsHalf | plugins/Squine/Squine.cpp:235-248 | a shortest sweep under a half cycle is at least one increment, and the down sweep `fmax(clip * midpoint, min_sweep)` fits before the midpoint |
| OldSquine.ShapedKeepsCycle | plugins/Squine/Squine.cpp:225-314 | shaping keeps `warped_phase` at least 0 and clip in [0, 1], and leaves `warped_phase` past 2 only when the advanced linear clock passes 2 |
| OldSquine.WrapKeepsCycle | plugins/Squine/Squine.cpp:316-353 | the wraparound catches a warp past 2 and leaves the state in `InCycle`: `warped_phase` in [0, 2], clip in [0, 1], frequencies at most the sample rate |
| OldSquine.SampleKeepsCycle | plugins/Squine/Squine.cpp:195-353 | a defined sample whose stepped frequency is at most the sample rate keeps `InCycle` (the [0, 2] range of plugins/Squine/Squine.cpp:34) |
| OldSquine.StepInRate | plugins/Squine/Squine.cpp:196-202 | the input step gives a frequency at most the sample rate when the block's frequencies are: every audio-rate sample, or the control-rate ramp's end |
| OldSquine.TickKeepsCycle | plugins/Squine/Squine.cpp:195-354 | a defined pass keeps `InCycle` and the rest of the block's frequencies within the sample rate |
| OldSquine.RunKeepsCycle | plugins/Squine/Squine.cpp:195-354 | the rest of the sample loop, when defined, ends in `InCycle` |
| OldSquine.BlockKeepsCycle | plugins/Squine/Squine.cpp:177-355 | a defined block from `InCycle` ends in `InCycle` when its audio-rate frequencies, or without an audio-rate sync input its control-rate target, are at most the sample rate |
| OldSquine.Squine.constructor | plugins/Squine/Squine.cpp:56-98 | the constants are `ConstsOf`, the unit is started, and one sample is computed as `Block` of one |
| OldSquine.Squine.Start | plugins/Squine/Squine.cpp:59-94 | the new state is `Started` from the host's first samples |
| OldSquine.Squine.InitPhase | plugins/Squine/Squine.cpp:103-142 | the new state is `Seeded` of the old |
| OldSquine.Squine.HardsyncInit | plugins/Squine/Squine.cpp:157-173 | the new state is `HardsyncStart` of the old |
| OldSquine.Squine.StepInputs | plugins/Squine/Squine.cpp:197-206 | the new state is `Stepped` of the old |
| OldSquine.Squine.PrepareSample | plugins/Squine/Squine.cpp:208-223 | the new state is `Prepared` of the old |
| OldSquine.Squine.ReadShape | plugins/Squine/Squine.cpp:238-241 | the new state is `Reread` of the old |
| OldSquine.Squine.ShapeSample | plugins/Squine/Squine.cpp:227-314 | output and new state are `Shaped` of the old |
| OldSquine.Squine.WrapCycle | plugins/Squine/Squine.cpp:318-353 | the new state is `Wrap` of the old and a rescan returns the first trigger from this sample on |
| OldSquine.Squine.Tick | plugins/Squine/Squine.cpp:195-353 | output, state and next sync index are `TickOf` of the old |
| OldSquine.Squine.Next | plugins/Squine/Squine.cpp:177-355 | the block's outputs and new state are `Block` of the old; the output array past n is untouched |
| OldSquine.Squine.Increments | plugins/Squine/Squine.cpp:191-193 | the block's increments are `BlockIncs` |
| OldSquine.Squine.Step | plugins/Squine/Squine.cpp:195-354 | one loop iteration extends the written prefix by the next `TickOf` output and keeps the rest of the block's result |

## Left out

- Floating point: the model computes in exact reals. It does not model rounding, infinities or NaN. The C++ `if (startphase)` test on a NaN is therefore not modelled, nor is Java's `Math.min` returning NaN for 0/0 (the model returns the cap, as `fmin` and `f64::min` do).
- `sound_out` is a `float` buffer in both plugins. The model does not round the stored sample to single precision.
- `cos` and `ln` are not computed. They are parameters of type `Cosine` (values in [-1, 1]) and `Logarithm` (positive above 1).
- Randomness: the plugins' `drand` and Java's `Math.random()` are parameters.
- Java `update(freq, clip, skew, sync)` (java/SquinewaveOscillator.java:80-85) is not modelled. It refers to an undeclared variable and does not compile.
- The plugins' `get_current()` (supercollider/plugins/Squine/Squine.cpp:76-78) is not modelled. Nothing calls it.
- The sync output of both plugins is commented out in the source, so it is not modelled. The Rust and Java sync outputs are modelled.
- Host plumbing is not modelled: the unit generator base class, `in`/`out` buffer access, plugin registration, `mCalcFunc` and the `.hpp` declarations. Host buffers are sequences, and the sound output is an array. The model does not capture the host aliasing an input buffer with the output buffer.
- The older plugin's debug print in its constructor is not modelled (console output).
- The example programs under `rust/examples` are not part of this model.
- The per-sample sweep parameters (midpoint, sweep lengths) are computed once per sample as `SweepEnv`. The source recomputes them inside each branch from the same fields, so the values are identical.
- JavaSquine.SquinewaveOscillator.HardsyncInit: the Java method's parameters shadow the fields. The only caller passes the fields themselves, so the model reads the fields.
- RustSquine.Config: requires `min_sweep > 1`, where `ln(min_sweep)` is positive. Below that the source divides by zero or by a negative logarithm, and the resulting constants are not modelled.
- RustSquine.Squinewave.constructor: requires `min_sweep > 1` for the same reason. The configuration's `sync_trig` and `max_freq` are the module constants `SYNC_TRIG` and `MAX_FREQ` instead of fields.
- ScSquine.Squine.constructor: the C++ fields that the constructor leaves uninitialised (phase and sweep phase when the start phase is 0) are parameters. The constructor also requires every host buffer, the sync buffer included, to hold at least one sample.
- OldSquine.Squine.Next: requires the block to be defined (`Block(...).Some?`). A control-rate frequency that steps below 0 makes the source's phase increment negative, and that is not modelled. `OldSquine.BlockDefined` gives sufficient conditions.
- OldSquine.Squine.constructor: requires a non-negative first frequency, for the same reason.
- The linear clock `phase` is not kept in [0, 2], because the code does not keep it there (see `JavaSquine.LinearClockPassesTwo`). Only the cosine clock's range is proved.
- The [0, 2] range is not proved for a Rust `min_sweep` argument below 4 (`RustSquine.ConfigKeepsCycle` requires at least 4). The shortest sweep is clamped up to 4 while the threshold uses the argument (`rust/src/lib.rs:60-65`), so below the threshold a sweep can exceed a half cycle, and for arguments near 1 the sync target exceeds the sample rate.
- The [0, 2] range is not proved for frequencies above the sample rate. `InCycle` and the block lemmas require every frequency input to be at most the sample rate, since one increment then exceeds a whole cycle and the source's single wraparound cannot bring the clocks back.
- OldSquine.BlockKeepsCycle: does not cover a control-rate frequency with an audio-rate sync input. Its ramp steps from the boosted frequency, so its end is not the host's value.
- OldSquine.BlockKeepsCycle: does not cover a unit whose clip lies above 1. The constructor's swapped clamp (`OldSquine.StartClip`) can give such a clip at scalar rate, and the shaping proof assumes a proportion in [0, 1].
- OldSquine.MinSweepOf: the cast of the random min_sweep to a 32-bit integer is `Floor`, which is exact for its positive range.
