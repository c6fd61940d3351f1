/** The per-sample model shared by the Rust revision (rust/src/lib.rs) and the Java revision
    (java/SquinewaveOscillator.java). Their setters, hardsync_init and generate are the same
    statements on the same fields; they differ in how the constants are derived and in
    set_init_phase, which modules RustSquine and JavaSquine define.

    The oscillator's state is described as a value, `Osc`, and one call of generate as a pure
    function of it (`Step` and the pieces it is made of). The newer SuperCollider plugin
    (module ScSquine) computes its constants, sweeps and hard sync ramp the same way and uses
    Consts, SweepEnv, PhaseInc and Ramp from here; the older plugin (module OldSquine) uses
    Ramp. */
module Squine {
  import opened Libm
  import opened Shape

  /** Sync input level at or above which a hard sync is requested. */
  const SYNC_TRIG: real := 0.9997

  /** Upper limit of the frequency input, in Hz. */
  const MAX_FREQ: real := 10000.0

  // ---------------------------------------------------------------------------------------
  //  Constants derived from the minimum sweep length and the sample rate
  // ---------------------------------------------------------------------------------------

  datatype Consts = Consts(
    minSweep: real,      // shortest sweep, in samples
    maxphaseBySr: real,  // phase increment per sample per Hz (a cycle has length 2)
    maxSweepFreq: real,  // at or above this frequency the output is a pure cosine
    maxSyncFreq: real,   // frequency a hard sync ramps up to
    syncPhaseInc: real,  // per-sample increment of the hard sync ramp's own phase
    maxSweepInc: real)   // largest advance of the warped clock per sample

  /** What both constructors establish: the minimum sweep lies in [4, 100], the increments
      are positive and the warped clock's cap per sample lies in (0, 1). */
  predicate ConstsValid(k: Consts)
  {
    && 4.0 <= k.minSweep <= 100.0
    && k.maxphaseBySr > 0.0
    && 0.0 < k.maxSweepInc < 1.0
    && k.maxSyncFreq > 0.0
    && k.syncPhaseInc > 0.0
  }

  // ---------------------------------------------------------------------------------------
  //  The state as a value, and the inputs
  // ---------------------------------------------------------------------------------------

  datatype Osc = Osc(
    freq: real,           // |frequency input|, limited to MAX_FREQ; raised during a hard sync
    clip: real,           // proportion of each half that sweeps: 1 = full sweep, 0 = square
    skew: real,           // length of the first half, in [0, 2]
    syncIn: bool,         // a hard sync was requested for the next sample
    rawFreq: real,        // the frequency input with its sign
    negFreq: bool,        // the previous sample ran backwards
    audioOut: real,
    syncOut: real,
    phase: real,          // linear clock, a cycle has length 2
    sweepPhase: real,     // warped clock, see module Shape
    hardsyncPhase: real,  // phase of the hard sync ramp, 0 when none is active
    hardsyncInc: real)

  /** Ranges every operation keeps. */
  predicate Normalised(s: Osc)
  {
    && s.freq >= 0.0
    && 0.0 <= s.clip <= 1.0
    && 0.0 <= s.skew <= 2.0
    && -1.0 <= s.audioOut <= 1.0
    && (s.syncOut == 0.0 || s.syncOut == 1.0)
    && s.hardsyncPhase >= 0.0
    && s.hardsyncInc >= 0.0
  }

  /** setFreq: the magnitude of the input, limited to MAX_FREQ. */
  function FreqOf(x: real): (r: real)
    ensures 0.0 <= r <= MAX_FREQ
    ensures (x <= MAX_FREQ && -x <= MAX_FREQ) ==> (r == x || r == -x)
    ensures (x > MAX_FREQ || -x > MAX_FREQ) ==> r == MAX_FREQ
  {
    Clamp(if x < 0.0 then -x else x, 0.0, MAX_FREQ)
  }

  /** setClip (and the plugins' GET_CLIP): the clip input in [0, 1] becomes the proportion
      1 - x that sweeps. */
  function ClipOf(x: real): (r: real)
    ensures 0.0 <= r <= 1.0
    ensures 0.0 <= x <= 1.0 ==> r + x == 1.0
    ensures x < 0.0 ==> r == 1.0
    ensures x > 1.0 ==> r == 0.0
  {
    1.0 - Clamp(x, 0.0, 1.0)
  }

  /** setSkew (and the plugins' GET_SKEW): the skew input in [-1, 1] becomes the first half's
      length 1 - x in [0, 2]. */
  function SkewOf(x: real): (r: real)
    ensures 0.0 <= r <= 2.0
    ensures -1.0 <= x <= 1.0 ==> r + x == 1.0
    ensures x < -1.0 ==> r == 2.0
    ensures x > 1.0 ==> r == 0.0
  {
    1.0 - Clamp(x, -1.0, 1.0)
  }

  // ---------------------------------------------------------------------------------------
  //  The pieces of one sample
  // ---------------------------------------------------------------------------------------

  /** hardsync_init: start the ramp toward the sync frequency unless one is active, the
      wave is already on its last flat part (then the cycle ends now) or the frequency is
      above the sync frequency. */
  function HardsyncStart(s: Osc, k: Consts): (r: Osc)
    ensures r == s.(phase := r.phase, hardsyncPhase := r.hardsyncPhase, hardsyncInc := r.hardsyncInc)
    ensures s.hardsyncPhase != 0.0 ==> r == s
    ensures s.hardsyncPhase == 0.0 && s.sweepPhase == 2.0 ==> r == s.(phase := 2.0)
    ensures s.hardsyncPhase == 0.0 && s.sweepPhase != 2.0 && s.freq > k.maxSyncFreq ==> r == s
    ensures s.hardsyncPhase == 0.0 && s.sweepPhase != 2.0 && s.freq <= k.maxSyncFreq ==>
      r.phase == s.phase && r.hardsyncInc == k.syncPhaseInc && r.hardsyncPhase * 2.0 == k.syncPhaseInc
  {
    if s.hardsyncPhase != 0.0 then s
    else if s.sweepPhase == 2.0 then s.(phase := 2.0)
    else if s.freq > k.maxSyncFreq then s
    else s.(hardsyncInc := k.syncPhaseInc, hardsyncPhase := k.syncPhaseInc * 0.5)
  }

  /** A second sync request while the first is being served changes nothing. */
  lemma HardsyncStartIdempotent(s: Osc, k: Consts)
    requires k.syncPhaseInc > 0.0
    ensures HardsyncStart(HardsyncStart(s, k), k) == HardsyncStart(s, k)
  {
  }

  /** The ramp of an active hard sync: the frequency moves toward the sync frequency by the
      raised-cosine weight of the ramp's phase, which advances and stops at pi. */
  function SyncRamp(s: Osc, k: Consts, cos: Cosine): (r: Osc)
    ensures r == s.(freq := r.freq, hardsyncPhase := r.hardsyncPhase, hardsyncInc := r.hardsyncInc)
    ensures s.hardsyncPhase == 0.0 ==> r == s
    ensures Min(s.freq, k.maxSyncFreq) <= r.freq <= Max(s.freq, k.maxSyncFreq)
    ensures s.hardsyncPhase != 0.0 && s.hardsyncPhase + s.hardsyncInc <= PI ==>
      r.hardsyncPhase == s.hardsyncPhase + s.hardsyncInc && r.hardsyncInc == s.hardsyncInc
    ensures s.hardsyncPhase != 0.0 && s.hardsyncPhase + s.hardsyncInc > PI ==>
      r.hardsyncPhase == PI && r.hardsyncInc == 0.0
  {
    if s.hardsyncPhase != 0.0 then
      var syncsweep := 0.5 * (1.0 - cos(s.hardsyncPhase));
      var f := Ramp(s.freq, k.maxSyncFreq, syncsweep);
      var hp := s.hardsyncPhase + s.hardsyncInc;
      if hp > PI then s.(freq := f, hardsyncPhase := PI, hardsyncInc := 0.0)
      else s.(freq := f, hardsyncPhase := hp)
    else s
  }

  /** The frequency f moved toward target by the proportion w. */
  function Ramp(f: real, target: real, w: real): (r: real)
    requires 0.0 <= w <= 1.0
    ensures Min(f, target) <= r <= Max(f, target)
  {
    RampBetween(f, target, w);
    f + w * (target - f)
  }

  lemma RampBetween(a: real, b: real, w: real)
    requires 0.0 <= w <= 1.0
    ensures Min(a, b) <= a + w * (b - a) <= Max(a, b)
  {
    if a <= b {
      NonNegativeProduct(w, b - a);
      NonNegativeProduct(1.0 - w, b - a);
    } else {
      NonNegativeProduct(w, a - b);
      NonNegativeProduct(1.0 - w, a - b);
    }
  }

  /** Through-zero: when the sign of the frequency input changes and no hard sync is active,
      both clocks jump to the opposite side of the waveform; while running backwards the
      skew is mirrored. */
  function ThroughZero(s: Osc): (r: Osc)
    ensures r == s.(negFreq := r.negFreq, phase := r.phase, sweepPhase := r.sweepPhase, skew := r.skew)
    ensures r.negFreq <==> s.rawFreq < 0.0
    ensures (s.rawFreq < 0.0) != s.negFreq && s.hardsyncPhase == 0.0 ==>
      r.phase == MirrorPhase(s.phase) && r.sweepPhase + s.sweepPhase == 2.0
    ensures !((s.rawFreq < 0.0) != s.negFreq && s.hardsyncPhase == 0.0) ==>
      r.phase == s.phase && r.sweepPhase == s.sweepPhase
    ensures r.negFreq && 0.0 <= s.skew <= 2.0 ==> r.skew + s.skew == 2.0
    ensures !r.negFreq ==> r.skew == s.skew
  {
    var zeroCrossing := (s.rawFreq < 0.0) != s.negFreq;
    var t := if zeroCrossing && s.hardsyncPhase == 0.0
             then s.(phase := MirrorPhase(s.phase), sweepPhase := 2.0 - s.sweepPhase)
             else s;
    var neg := s.rawFreq < 0.0;
    t.(negFreq := neg, skew := if neg then Clamp(2.0 - t.skew, 0.0, 2.0) else t.skew)
  }

  /** The state on which the waveform is shaped: the sync request is served, the ramp
      advanced and the through-zero logic applied. */
  function Prepared(s: Osc, k: Consts, cos: Cosine): (r: Osc)
    requires ConstsValid(k) && Normalised(s)
    ensures Normalised(r) && !r.syncIn && r.hardsyncPhase <= PI
    ensures r.clip == s.clip && r.rawFreq == s.rawFreq
    ensures r.audioOut == s.audioOut && r.syncOut == s.syncOut
  {
    var q := if s.syncIn then HardsyncStart(s, k).(syncIn := false) else s;
    ThroughZero(SyncRamp(q, k, cos))
  }

  /** Where the first half ends on the linear clock, kept a minimum sweep away from 0 and 2. */
  function Midpoint(skew: real, minSweep: real): (m: real)
    ensures minSweep <= skew <= 2.0 - minSweep ==> m == skew
    ensures minSweep <= 1.0 ==> minSweep <= m <= 2.0 - minSweep
    ensures skew < minSweep ==> m == minSweep
  {
    Clamp(skew, minSweep, 2.0 - minSweep)
  }

  /** The sweep quantities of generate and set_init_phase at the increment phaseInc. */
  function SweepEnv(clip: real, skew: real, k: Consts, phaseInc: real): (e: Env)
    requires ConstsValid(k) && 0.0 <= clip <= 1.0 && phaseInc >= 0.0
    ensures EnvValid(e)
    ensures e.phaseInc == phaseInc
    ensures e.maxSweepInc == k.maxSweepInc
    ensures e.minSweep == phaseInc * k.minSweep
    ensures e.phaseInc <= e.minSweep
    ensures e.minSweep < 1.0 ==> e.minSweep <= e.midpoint
    ensures e.minSweep < 1.0 ==> e.downLength <= e.midpoint
    ensures e.midpoint == Midpoint(skew, e.minSweep)
    ensures e.downLength == DownLength(clip, e.midpoint, e.minSweep)
    ensures e.upLength == UpLength(clip, e.midpoint, e.minSweep)
  {
    ShortestSweepFacts(phaseInc, k.minSweep);
    EnvWith(clip, skew, phaseInc, phaseInc * k.minSweep, k.maxSweepInc)
  }

  /** The Env at the increment phaseInc whose shortest sweep is ms: the midpoint is the skew
      kept a shortest sweep away from 0 and 2, and the sweeps take the proportion clip of
      their halves. */
  function EnvWith(clip: real, skew: real, phaseInc: real, ms: real, maxSweepInc: real): (e: Env)
    requires 0.0 <= clip <= 1.0 && 0.0 <= phaseInc <= ms && (ms > 0.0 <==> phaseInc > 0.0)
    requires 0.0 < maxSweepInc < 1.0
    ensures EnvValid(e)
    ensures e.phaseInc == phaseInc && e.minSweep == ms && e.maxSweepInc == maxSweepInc
    ensures ms < 1.0 ==> ms <= e.midpoint && e.downLength <= e.midpoint
    ensures e.midpoint == Midpoint(skew, ms)
    ensures e.downLength == DownLength(clip, e.midpoint, ms) && e.upLength == UpLength(clip, e.midpoint, ms)
  {
    MakeEnv(phaseInc, ms, Midpoint(skew, ms), clip, maxSweepInc)
  }

  /** The shortest sweep phaseInc * m vanishes exactly at zero increment and is at least
      the increment. */
  lemma ShortestSweepFacts(phaseInc: real, m: real)
    requires phaseInc >= 0.0 && m >= 1.0
    ensures phaseInc <= phaseInc * m
    ensures phaseInc * m > 0.0 <==> phaseInc > 0.0
  {
    if phaseInc > 0.0 {
      MulStrict(phaseInc, 1.0, m);
    }
  }

  /** generate's waveform shaping, before the linear clock advances. At or above the
      pure-sine threshold the output is cos(pi * warp) and the warp takes over the linear
      clock; below it the segment the clocks are on decides. */
  function Shaped(p: Osc, k: Consts, phaseInc: real, cos: Cosine): (r: Osc)
    requires ConstsValid(k) && 0.0 <= p.clip <= 1.0 && phaseInc >= 0.0
    ensures r == p.(audioOut := r.audioOut, phase := r.phase, sweepPhase := r.sweepPhase)
    ensures -1.0 <= r.audioOut <= 1.0
    ensures p.freq >= k.maxSweepFreq ==>
      r.audioOut == cos(PI * p.sweepPhase) && r.phase == p.sweepPhase && r.sweepPhase == p.sweepPhase + phaseInc
  {
    if p.freq >= k.maxSweepFreq then
      p.(audioOut := cos(PI * p.sweepPhase), phase := p.sweepPhase, sweepPhase := p.sweepPhase + phaseInc)
    else
      var c := Segments(SweepEnv(p.clip, p.skew, k, phaseInc), p.phase, p.sweepPhase, cos);
      p.(audioOut := c.audio, phase := c.phase, sweepPhase := c.warp)
  }

  /** The end-of-cycle test after the linear clock has advanced. Both clocks at or past 2
      end the cycle and emit a sync pulse: a hard sync in progress is finished by zeroing
      the clocks and the ramp, otherwise the linear clock keeps its fraction past 2 (reset
      to half an increment when that exceeds one increment) and the warp restarts from it. */
  function Wrap(u: Osc, k: Consts, phaseInc: real): (r: Osc)
    requires ConstsValid(k) && 0.0 <= u.clip <= 1.0 && phaseInc >= 0.0
    ensures r == u.(phase := r.phase, sweepPhase := r.sweepPhase, hardsyncPhase := r.hardsyncPhase,
                    hardsyncInc := r.hardsyncInc, syncOut := r.syncOut)
    ensures r.syncOut == 1.0 <==> u.sweepPhase >= 2.0 && u.phase >= 2.0
    ensures r.syncOut == 0.0 <==> !(u.sweepPhase >= 2.0 && u.phase >= 2.0)
    ensures !(u.sweepPhase >= 2.0 && u.phase >= 2.0) ==> r == u.(syncOut := 0.0)
    ensures u.sweepPhase >= 2.0 && u.phase >= 2.0 && u.hardsyncPhase != 0.0 ==>
      r.phase == 0.0 && r.sweepPhase == 0.0 && r.hardsyncPhase == 0.0 && r.hardsyncInc == 0.0
    ensures u.sweepPhase >= 2.0 && u.phase >= 2.0 && u.hardsyncPhase == 0.0 ==>
      && r.hardsyncPhase == 0.0 && r.hardsyncInc == u.hardsyncInc
      && 0.0 <= r.phase <= phaseInc
      && (u.phase - 2.0 <= phaseInc ==> r.phase == u.phase - 2.0)
      && (u.phase - 2.0 > phaseInc ==> r.phase == phaseInc * 0.5)
      && (u.freq >= k.maxSweepFreq ==> r.sweepPhase == r.phase)
      && (u.freq < k.maxSweepFreq ==> r.sweepPhase == DownRestart(SweepEnv(u.clip, u.skew, k, phaseInc), r.phase))
  {
    if u.sweepPhase >= 2.0 && u.phase >= 2.0 then
      if u.hardsyncPhase != 0.0 then
        u.(sweepPhase := 0.0, phase := 0.0, hardsyncPhase := 0.0, hardsyncInc := 0.0, syncOut := 1.0)
      else
        var ph := u.phase - 2.0;
        var ph := if ph > phaseInc then phaseInc * 0.5 else ph;
        if u.freq < k.maxSweepFreq then
          u.(phase := ph, sweepPhase := DownRestart(SweepEnv(u.clip, u.skew, k, phaseInc), ph), syncOut := 1.0)
        else u.(phase := ph, sweepPhase := ph, syncOut := 1.0)
    else u.(syncOut := 0.0)
  }

  /** One call of generate on the state s. It keeps every range of Normalised, clears the
      sync request and leaves the clip and the signed frequency input as they were. */
  function Step(s: Osc, k: Consts, cos: Cosine): (r: Osc)
    requires ConstsValid(k) && Normalised(s)
    ensures Normalised(r) && !r.syncIn && r.hardsyncPhase <= PI
    ensures r.clip == s.clip && r.rawFreq == s.rawFreq
  {
    Advance(Prepared(s, k, cos), k, cos)
  }

  /** The linear clock's advance per sample at the frequency freq. */
  function PhaseInc(k: Consts, freq: real): (inc: real)
    requires k.maxphaseBySr > 0.0 && freq >= 0.0
    ensures inc >= 0.0
    ensures inc == 0.0 <==> freq == 0.0
  {
    if freq > 0.0 then PositiveProduct(k.maxphaseBySr, freq); k.maxphaseBySr * freq
    else k.maxphaseBySr * freq
  }

  /** The rest of generate on the prepared state p: shape the waveform, advance the linear
      clock by one increment and test for the end of the cycle. */
  function Advance(p: Osc, k: Consts, cos: Cosine): (r: Osc)
    requires ConstsValid(k) && Normalised(p)
    ensures Normalised(r) && r.syncIn == p.syncIn && r.freq == p.freq
    ensures r.hardsyncPhase == p.hardsyncPhase || r.hardsyncPhase == 0.0
    ensures r.clip == p.clip && r.rawFreq == p.rawFreq
  {
    var phaseInc := PhaseInc(k, p.freq);
    var u := Shaped(p, k, phaseInc, cos);
    Wrap(u.(phase := u.phase + phaseInc), k, phaseInc)
  }

  /** On the pure-sine path the two clocks agree after every sample, wrap included, and the
      output is the cosine of the warp the sample started from. */
  lemma FastPathLocksClocks(p: Osc, k: Consts, cos: Cosine)
    requires ConstsValid(k) && Normalised(p) && p.freq >= k.maxSweepFreq
    ensures Advance(p, k, cos).phase == Advance(p, k, cos).sweepPhase
    ensures Advance(p, k, cos).audioOut == cos(PI * p.sweepPhase)
  {
    var phaseInc := PhaseInc(k, p.freq);
    var u := Shaped(p, k, phaseInc, cos);
    assert u.phase + phaseInc == u.sweepPhase;
  }

  // ---------------------------------------------------------------------------------------
  //  The warped clock's range
  // ---------------------------------------------------------------------------------------

  /** Constants under which the warped clock stays in [0, 2]: below the pure-cosine
      threshold the shortest sweep is shorter than a half cycle, and the frequency a hard
      sync ramps toward is at most the sample rate (an increment of at most one cycle). */
  predicate CycleConsts(k: Consts)
  {
    && ConstsValid(k)
    && k.maxSweepFreq * k.maxphaseBySr * k.minSweep <= 1.0
    && k.maxSyncFreq * k.maxphaseBySr <= 2.0
  }

  /** How the constructors derive the constants from the shortest sweep at sample rate sr:
      the phase increment per Hz makes the sample rate one cycle of 2, the pure-cosine
      threshold is where the shortest sweep spans a half cycle, the cap on the warp is one
      shortest sweep, and the sync ramp takes ln(min_sweep) samples per radian toward a third
      of the sample rate over ln(min_sweep). */
  predicate DerivedFor(k: Consts, sampleRate: real, ln: Logarithm)
  {
    && k.maxphaseBySr * sampleRate == 2.0
    && k.maxSweepFreq * (2.0 * k.minSweep) == sampleRate
    && k.maxSweepFreq * k.maxphaseBySr * k.minSweep == 1.0
    && k.maxSweepInc * k.minSweep == 1.0
    && k.maxSyncFreq * 3.0 == sampleRate * k.syncPhaseInc
    && k.syncPhaseInc * ln(k.minSweep) == 1.0
  }

  /** The constants of a unit whose shortest sweep is ms, derived as DerivedFor says. */
  function ConstsFrom(ms: real, sampleRate: real, ln: Logarithm): (k: Consts)
    requires 4.0 <= ms <= 100.0 && sampleRate > 0.0
    ensures ConstsValid(k) && k.minSweep == ms
    ensures DerivedFor(k, sampleRate, ln)
  {
    assert (sampleRate / (2.0 * ms)) * (2.0 / sampleRate) == 1.0 / ms;
    Consts(ms, 2.0 / sampleRate, sampleRate / (2.0 * ms), sampleRate / (3.0 * ln(ms)), 1.0 / ln(ms),
           1.0 / ms)
  }

  /** The constants as the constructors derive them meet CycleConsts: the phase increment per
      Hz is 2 / sr, the pure-cosine threshold is sr / (2 arg) for an argument arg at least the
      shortest sweep, and the sync target is sr / (3 l) for a logarithm l of at least 1. */
  lemma DerivedCycleConsts(k: Consts, sampleRate: real, arg: real, l: real)
    requires ConstsValid(k) && sampleRate > 0.0 && arg >= k.minSweep && l >= 1.0
    requires k.maxphaseBySr == 2.0 / sampleRate
    requires k.maxSweepFreq == sampleRate / (2.0 * arg)
    requires k.maxSyncFreq == sampleRate / (3.0 * l)
    ensures CycleConsts(k)
  {
    assert k.maxSweepFreq * k.maxphaseBySr == 1.0 / arg;
    MulStrict(1.0 / arg, k.minSweep, arg);
    assert k.maxSyncFreq * k.maxphaseBySr == 2.0 / (3.0 * l);
  }

  /** The warped clock lies in its cycle [0, 2], and the frequency is at most the sample
      rate. */
  predicate InCycle(s: Osc, k: Consts)
  {
    0.0 <= s.sweepPhase <= 2.0 && s.freq >= 0.0 && k.maxphaseBySr > 0.0 && PhaseInc(k, s.freq) <= 2.0
  }

  /** Below the pure-cosine threshold the shortest sweep of a sample is shorter than half a
      cycle, so the sweeps of that sample fit their halves. */
  lemma BelowThreshold(k: Consts, freq: real)
    requires CycleConsts(k) && 0.0 <= freq < k.maxSweepFreq
    ensures PhaseInc(k, freq) * k.minSweep < 1.0
  {
    MulStrict(k.maxphaseBySr, freq, k.maxSweepFreq);
    MulStrict(k.minSweep, PhaseInc(k, freq), k.maxphaseBySr * k.maxSweepFreq);
    assert k.minSweep * (k.maxphaseBySr * k.maxSweepFreq) == k.maxSweepFreq * k.maxphaseBySr * k.minSweep;
    Below(k.minSweep * PhaseInc(k, freq), k.minSweep * (k.maxphaseBySr * k.maxSweepFreq), 1.0);
    Commute(k.minSweep, PhaseInc(k, freq), 1.0);
  }

  /** Shaping a sample and advancing the linear clock by an increment of at most one cycle
      leaves the warp in [0, 2] unless both clocks have reached 2, the case the
      wraparound test catches. */
  lemma ShapedKeepsCycle(p: Osc, k: Consts, cos: Cosine)
    requires CycleConsts(k) && 0.0 <= p.clip <= 1.0 && p.freq >= 0.0
    requires 0.0 <= p.sweepPhase <= 2.0 && PhaseInc(k, p.freq) <= 2.0
    ensures 0.0 <= Shaped(p, k, PhaseInc(k, p.freq), cos).sweepPhase
    ensures Shaped(p, k, PhaseInc(k, p.freq), cos).sweepPhase > 2.0 ==>
      Shaped(p, k, PhaseInc(k, p.freq), cos).phase + PhaseInc(k, p.freq) > 2.0
  {
    if p.freq < k.maxSweepFreq {
      SweepKeepsCycle(k, p.freq, p.clip, p.skew, p.phase, p.sweepPhase, cos);
    }
  }

  /** Below the pure-cosine threshold the segments of a sample leave the warp at least 0,
      and past 2 only when the linear clock passes 2 with the increment. */
  lemma SweepKeepsCycle(k: Consts, freq: real, clip: real, skew: real, phase: real, warp: real, cos: Cosine)
    requires CycleConsts(k) && 0.0 <= clip <= 1.0 && 0.0 <= freq < k.maxSweepFreq && 0.0 <= warp <= 2.0
    ensures var c := Segments(SweepEnv(clip, skew, k, PhaseInc(k, freq)), phase, warp, cos);
            0.0 <= c.warp && (c.warp > 2.0 ==> c.phase + PhaseInc(k, freq) > 2.0)
  {
    BelowThreshold(k, freq);
    SegmentsKeepCycle(SweepEnv(clip, skew, k, PhaseInc(k, freq)), phase, warp, cos);
  }

  /** A frequency between two frequencies of at most the sample rate is at most the sample
      rate. */
  lemma RateBetween(k: Consts, a: real, x: real, b: real)
    requires k.maxphaseBySr > 0.0 && a >= 0.0 && b >= 0.0 && Min(a, b) <= x <= Max(a, b)
    requires PhaseInc(k, a) <= 2.0 && PhaseInc(k, b) <= 2.0
    ensures x >= 0.0 && PhaseInc(k, x) <= 2.0
  {
    if x <= a {
      RateBelow(k, x, a);
    } else {
      RateBelow(k, x, b);
    }
  }

  lemma RateBelow(k: Consts, x: real, a: real)
    requires k.maxphaseBySr > 0.0 && 0.0 <= x <= a && PhaseInc(k, a) <= 2.0
    ensures PhaseInc(k, x) <= 2.0
  {
    NonNegativeProduct(k.maxphaseBySr, a - x);
    assert PhaseInc(k, a) - PhaseInc(k, x) == k.maxphaseBySr * (a - x);
    assert PhaseInc(k, x) <= PhaseInc(k, a);
  }

  /** The frequency a hard sync ramps toward is at most the sample rate. */
  lemma SyncWithinRate(k: Consts)
    requires CycleConsts(k)
    ensures PhaseInc(k, k.maxSyncFreq) <= 2.0
  {
    assert PhaseInc(k, k.maxSyncFreq) == k.maxphaseBySr * k.maxSyncFreq;
  }

  /** Shaping and wrapping keep the warped clock of a prepared state in [0, 2] when the
      increment is at most one cycle. */
  lemma AdvanceKeepsCycle(p: Osc, k: Consts, cos: Cosine)
    requires CycleConsts(k) && Normalised(p)
    requires 0.0 <= p.sweepPhase <= 2.0 && PhaseInc(k, p.freq) <= 2.0
    ensures 0.0 <= Advance(p, k, cos).sweepPhase <= 2.0
  {
    ShapedKeepsCycle(p, k, cos);
  }

  /** generate keeps the design's invariant: the warped clock stays in [0, 2], as long as
      the frequency is at most the sample rate. A hard sync raises the frequency only
      toward the sync frequency, which is at most the sample rate too. */
  lemma StepKeepsCycle(s: Osc, k: Consts, cos: Cosine)
    requires CycleConsts(k) && Normalised(s) && InCycle(s, k)
    ensures InCycle(Step(s, k, cos), k)
  {
    PreparedWithinRate(s, k, cos);
    AdvanceKeepsCycle(Prepared(s, k, cos), k, cos);
  }

  /** The frequency a sample is shaped at stays at most the sample rate. */
  lemma PreparedWithinRate(s: Osc, k: Consts, cos: Cosine)
    requires CycleConsts(k) && Normalised(s) && InCycle(s, k)
    ensures InCycle(Prepared(s, k, cos), k)
  {
    SyncWithinRate(k);
    RateBetween(k, s.freq, Prepared(s, k, cos).freq, k.maxSyncFreq);
  }


  // ---------------------------------------------------------------------------------------
  //  The initial state
  // ---------------------------------------------------------------------------------------

  /** The state the constructor starts from before it seeds the phase: 220 Hz, no clip
      effect, no skew, everything else zero or false. */
  function Initial(): (s: Osc)
    ensures Normalised(s) && s.freq == 220.0 && s.clip == 1.0 && s.skew == 0.0
  {
    Osc(220.0, 1.0, 0.0, false, 0.0, false, 0.0, 0.0, 0.0, 0.0, 0.0, 0.0)
  }
}
